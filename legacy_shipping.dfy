/** The original shipping method class: one method object offering GoSend
    Instant and GoSend Same Day, splitting the cart greedily into drivers,
    pricing each service from its own settings and registering a rate per
    service with the cart. */
module LegacyShipping {
  import opened Values
  import opened Strings

  // ---------------------------------------------------------------------
  // Cart lines and limits
  // ---------------------------------------------------------------------

  /** One cart line: the product's weight (kg) and dimensions (cm) after unit
      conversion, and the ordered quantity. */
  datatype CartLine = CartLine(weight: real, width: real, length: real, height: real, quantity: int)

  /** A numeric setting as get_option returns it: the stored text, and the
      number that text reads as in arithmetic and comparisons. */
  datatype StoredNumber = StoredNumber(text: string, value: real)

  /** The setting switches its check on when its text is truthy in PHP: every
      text except "" and "0", so "0.0" switches it on with the value 0. */
  predicate IsSet(s: StoredNumber) {
    !EmptyString(s.text)
  }

  /** A blank setting: the check it guards is off. */
  const Blank := StoredNumber("", 0.0)

  /** The per-service package limits; a limit that is not set means "no limit". */
  datatype Limits = Limits(maxWeight: StoredNumber, maxWidth: StoredNumber, maxLength: StoredNumber, maxHeight: StoredNumber)

  /** The weight a line contributes: product weight times quantity. */
  function ItemWeight(line: CartLine): real {
    line.weight * line.quantity as real
  }

  /** The height a line contributes: items of a line are stacked. */
  function ItemHeight(line: CartLine): real {
    line.height * line.quantity as real
  }

  /** A single line beyond a set limit makes the service unavailable. */
  predicate LineTooBig(line: CartLine, lim: Limits) {
    (IsSet(lim.maxWeight) && ItemWeight(line) > lim.maxWeight.value)
    || (IsSet(lim.maxWidth) && line.width > lim.maxWidth.value)
    || (IsSet(lim.maxLength) && line.length > lim.maxLength.value)
    || (IsSet(lim.maxHeight) && ItemHeight(line) > lim.maxHeight.value)
  }

  // ---------------------------------------------------------------------
  // Greedy driver split
  // ---------------------------------------------------------------------

  /** The lines loaded on the current driver, one list per measure. */
  datatype Bucket = Bucket(weights: seq<real>, widths: seq<real>, lengths: seq<real>, heights: seq<real>)

  const EmptyBucket := Bucket([], [], [], [])

  /** Adding the line would overflow the current driver: summed weight, largest
      width, largest length or summed height beyond a set limit, tested in
      that order. */
  predicate Overflows(lim: Limits, b: Bucket, line: CartLine) {
    (IsSet(lim.maxWeight) && SumReals(b.weights + [ItemWeight(line)]) > lim.maxWeight.value)
    || (IsSet(lim.maxWidth) && MaxOf(b.widths + [line.width]) > lim.maxWidth.value)
    || (IsSet(lim.maxLength) && MaxOf(b.lengths + [line.length]) > lim.maxLength.value)
    || (IsSet(lim.maxHeight) && SumReals(b.heights + [ItemHeight(line)]) > lim.maxHeight.value)
  }

  function Loaded(b: Bucket, line: CartLine): Bucket {
    Bucket(b.weights + [ItemWeight(line)], b.widths + [line.width], b.lengths + [line.length], b.heights + [ItemHeight(line)])
  }

  /** One iteration: on overflow the bucket is emptied and one more driver is
      counted, and the overflowing line itself is not loaded anywhere;
      otherwise the line joins the bucket. */
  function Step(lim: Limits, b: Bucket, drivers: int, line: CartLine): (Bucket, int) {
    if Overflows(lim, b, line) then (EmptyBucket, drivers + 1) else (Loaded(b, line), drivers)
  }

  /** The loop from a given state over the remaining lines: null as soon as a
      line alone is too big, else the final driver count. */
  function SplitFrom(lim: Limits, b: Bucket, drivers: int, rest: seq<CartLine>): Option<int>
    decreases |rest|
  {
    if rest == [] then Some(drivers)
    else if LineTooBig(rest[0], lim) then None
    else
      var (b', d') := Step(lim, b, drivers, rest[0]);
      SplitFrom(lim, b', d', rest[1..])
  }

  /** The driver count for a cart, starting with one driver and an empty bucket. */
  function DriversFor(lines: seq<CartLine>, lim: Limits): Option<int> {
    SplitFrom(lim, EmptyBucket, 1, lines)
  }

  /** The cart loop of calculate_shipping_instant / _same_day. */
  method SplitDrivers(lines: seq<CartLine>, lim: Limits) returns (r: Option<int>)
    ensures r == DriversFor(lines, lim)
    ensures r.None? <==> exists i :: 0 <= i < |lines| && LineTooBig(lines[i], lim)
    ensures r.Some? ==> 1 <= r.value <= 1 + |lines|
  {
    SplitFacts(lim, EmptyBucket, 1, lines);
    var bucket := EmptyBucket;
    var drivers := 1;
    for i := 0 to |lines|
      invariant SplitFrom(lim, bucket, drivers, lines[i..]) == DriversFor(lines, lim)
    {
      var line := lines[i];
      assert lines[i..][0] == line && lines[i..][1..] == lines[i + 1..];
      if LineTooBig(line, lim) {
        return None;
      }
      if Overflows(lim, bucket, line) {
        bucket := EmptyBucket;
        drivers := drivers + 1;
      } else {
        bucket := Loaded(bucket, line);
      }
    }
    return Some(drivers);
  }

  /** The loop fails exactly when some line alone is too big, and otherwise
      adds at most one driver per line and never removes one. */
  lemma {:induction false} SplitFacts(lim: Limits, b: Bucket, drivers: int, rest: seq<CartLine>)
    ensures SplitFrom(lim, b, drivers, rest).None? <==> exists i :: 0 <= i < |rest| && LineTooBig(rest[i], lim)
    ensures SplitFrom(lim, b, drivers, rest).Some? ==>
      drivers <= SplitFrom(lim, b, drivers, rest).value <= drivers + |rest|
    decreases |rest|
  {
    if rest != [] && !LineTooBig(rest[0], lim) {
      var (b', d') := Step(lim, b, drivers, rest[0]);
      SplitFacts(lim, b', d', rest[1..]);
      if exists i :: 0 <= i < |rest[1..]| && LineTooBig(rest[1..][i], lim) {
        var i :| 0 <= i < |rest[1..]| && LineTooBig(rest[1..][i], lim);
        assert LineTooBig(rest[i + 1], lim);
      }
      if exists i :: 0 <= i < |rest| && LineTooBig(rest[i], lim) {
        var i :| 0 <= i < |rest| && LineTooBig(rest[i], lim);
        assert i > 0;
        assert LineTooBig(rest[1..][i - 1], lim);
      }
    }
  }

  /** Every width and length already loaded is within its set limit. */
  predicate WithinItemLimits(b: Bucket, lim: Limits) {
    (IsSet(lim.maxWidth) ==> forall i :: 0 <= i < |b.widths| ==> b.widths[i] <= lim.maxWidth.value)
    && (IsSet(lim.maxLength) ==> forall i :: 0 <= i < |b.lengths| ==> b.lengths[i] <= lim.maxLength.value)
  }

  /** Once the line checks have passed, the width and length tests of the
      split can never fire: only summed weight or height starts a new driver.
      The bucket keeps that property. */
  lemma OnlyWeightOrHeightSplits(lim: Limits, b: Bucket, line: CartLine)
    requires WithinItemLimits(b, lim)
    requires !LineTooBig(line, lim)
    ensures Overflows(lim, b, line) <==>
      (IsSet(lim.maxWeight) && SumReals(b.weights) + ItemWeight(line) > lim.maxWeight.value)
      || (IsSet(lim.maxHeight) && SumReals(b.heights) + ItemHeight(line) > lim.maxHeight.value)
    ensures WithinItemLimits(Step(lim, b, 0, line).0, lim)
  {
    var ws := b.widths + [line.width];
    var ls := b.lengths + [line.length];
    if IsSet(lim.maxWidth) {
      assert forall i :: 0 <= i < |ws| ==> ws[i] <= lim.maxWidth.value by {
        forall i | 0 <= i < |ws| ensures ws[i] <= lim.maxWidth.value {
          if i < |b.widths| { assert ws[i] == b.widths[i]; }
        }
      }
      var k :| 0 <= k < |ws| && ws[k] == MaxOf(ws);
    }
    if IsSet(lim.maxLength) {
      assert forall i :: 0 <= i < |ls| ==> ls[i] <= lim.maxLength.value by {
        forall i | 0 <= i < |ls| ensures ls[i] <= lim.maxLength.value {
          if i < |b.lengths| { assert ls[i] == b.lengths[i]; }
        }
      }
      var k :| 0 <= k < |ls| && ls[k] == MaxOf(ls);
    }
  }

  /** The measures of a run of lines, as the bucket lists them. */
  function LoadedAll(lines: seq<CartLine>): Bucket
    decreases |lines|
  {
    if lines == [] then EmptyBucket else Loaded(LoadedAll(lines[..|lines| - 1]), lines[|lines| - 1])
  }

  /** A cart whose summed weight and height fit the limits, and whose lines
      each pass the line checks, needs a single driver. */
  lemma {:induction false} FittingCartOneDriver(lines: seq<CartLine>, lim: Limits)
    requires forall i :: 0 <= i < |lines| ==> !LineTooBig(lines[i], lim)
    requires forall i :: 0 <= i < |lines| ==> ItemWeight(lines[i]) >= 0.0 && ItemHeight(lines[i]) >= 0.0
    requires IsSet(lim.maxWeight) ==> SumReals(LoadedAll(lines).weights) <= lim.maxWeight.value
    requires IsSet(lim.maxHeight) ==> SumReals(LoadedAll(lines).heights) <= lim.maxHeight.value
    ensures DriversFor(lines, lim) == Some(1)
  {
    FitsFrom(lines, lim, 0);
    assert lines[..0] == [];
    assert lines[0..] == lines;
  }

  lemma {:induction false} FitsFrom(lines: seq<CartLine>, lim: Limits, i: nat)
    requires i <= |lines|
    requires forall j :: 0 <= j < |lines| ==> !LineTooBig(lines[j], lim)
    requires forall j :: 0 <= j < |lines| ==> ItemWeight(lines[j]) >= 0.0 && ItemHeight(lines[j]) >= 0.0
    requires IsSet(lim.maxWeight) ==> SumReals(LoadedAll(lines).weights) <= lim.maxWeight.value
    requires IsSet(lim.maxHeight) ==> SumReals(LoadedAll(lines).heights) <= lim.maxHeight.value
    ensures SplitFrom(lim, LoadedAll(lines[..i]), 1, lines[i..]) == Some(1)
    decreases |lines| - i
  {
    if i < |lines| {
      var b := LoadedAll(lines[..i]);
      assert lines[i..][0] == lines[i] && lines[i..][1..] == lines[i + 1..];
      assert lines[..i + 1][..i] == lines[..i];
      LoadedAllWithin(lines[..i], lim);
      PrefixSums(lines, i + 1);
      OnlyWeightOrHeightSplits(lim, b, lines[i]);
      assert !Overflows(lim, b, lines[i]);
      FitsFrom(lines, lim, i + 1);
    }
  }

  lemma {:induction false} LoadedAllWithin(lines: seq<CartLine>, lim: Limits)
    requires forall j :: 0 <= j < |lines| ==> !LineTooBig(lines[j], lim)
    ensures WithinItemLimits(LoadedAll(lines), lim)
    decreases |lines|
  {
    if lines != [] {
      var init := lines[..|lines| - 1];
      LoadedAllWithin(init, lim);
      OnlyWeightOrHeightSplits(lim, LoadedAll(init), lines[|lines| - 1]);
    }
  }

  /** With non-negative lines, a prefix never weighs or stacks more than the
      whole cart. */
  lemma {:induction false} PrefixSums(lines: seq<CartLine>, k: nat)
    requires k <= |lines|
    requires forall j :: 0 <= j < |lines| ==> ItemWeight(lines[j]) >= 0.0 && ItemHeight(lines[j]) >= 0.0
    ensures SumReals(LoadedAll(lines[..k]).weights) <= SumReals(LoadedAll(lines).weights)
    ensures SumReals(LoadedAll(lines[..k]).heights) <= SumReals(LoadedAll(lines).heights)
    decreases |lines| - k
  {
    if k < |lines| {
      var init := lines[..|lines| - 1];
      assert init[..k] == lines[..k];
      PrefixSums(init, k);
    } else {
      assert lines[..k] == lines;
    }
  }

  /** Three 15 kg lines under a 20 kg limit: the second line overflows and
      starts a second driver, but it is dropped rather than loaded, so the
      third line fits and the cart gets two drivers for 45 kg. */
  lemma ThreeFifteens()
    ensures var line := CartLine(15.0, 0.0, 0.0, 0.0, 1);
            DriversFor([line, line, line], Limits(StoredNumber("20", 20.0), Blank, Blank, Blank)) == Some(2)
  {
    var line := CartLine(15.0, 0.0, 0.0, 0.0, 1);
    var lim := Limits(StoredNumber("20", 20.0), Blank, Blank, Blank);
    var lines := [line, line, line];
    var b1 := Loaded(EmptyBucket, line);
    SumSmall(15.0, 15.0);
    assert EmptyBucket.weights + [ItemWeight(line)] == [15.0];
    assert b1.weights + [ItemWeight(line)] == [15.0, 15.0];
    assert !Overflows(lim, EmptyBucket, line);
    assert lines[1..] == [line, line] && lines[1..][1..] == [line];
    assert SplitFrom(lim, EmptyBucket, 1, lines) == SplitFrom(lim, b1, 1, [line, line]);
    assert Overflows(lim, b1, line);
    assert SplitFrom(lim, b1, 1, [line, line]) == SplitFrom(lim, EmptyBucket, 2, [line]);
    assert [line][1..] == [];
  }

  /** A weight limit stored as "0.0" is on, not blank: a cart holding any
      line that weighs something gets no driver split at all. */
  lemma ZeroTextWeightLimit(lines: seq<CartLine>, lim: Limits, k: int)
    requires lim.maxWeight == StoredNumber("0.0", 0.0)
    requires 0 <= k < |lines| && ItemWeight(lines[k]) > 0.0
    ensures DriversFor(lines, lim) == None
  {
    assert LineTooBig(lines[k], lim);
    SplitFacts(lim, EmptyBucket, 1, lines);
  }

  lemma SumSmall(a: real, b: real)
    ensures SumReals([a]) == a
    ensures SumReals([a, b]) == a + b
  {
    assert [a][..0] == [];
    assert [a, b][..1] == [a];
  }

  // ---------------------------------------------------------------------
  // Pricing and labels
  // ---------------------------------------------------------------------

  datatype LegacyService = InstantDelivery | SameDayDelivery

  /** The settings one service reads. The per-km cost is only ever used as a
      number; the others are also tested for truthiness. */
  datatype ServiceConfig = ServiceConfig(
    enable: string, title: string, showDistance: string,
    maxDistance: StoredNumber, limits: Limits,
    perKmCost: real, minCost: StoredNumber, maxCost: StoredNumber)

  /** The route found for the destination: the distance in whole kilometres
      and its text. */
  datatype Route = Route(distance: int, distanceText: string)

  /** Instant: the distance times the per-km cost, raised to the minimum cost
      when one is set, then once per driver. */
  function InstantCost(cfg: ServiceConfig, distance: int, drivers: int): (c: real)
    ensures IsSet(cfg.minCost) ==> c == MaxReal(cfg.perKmCost * distance as real, cfg.minCost.value) * drivers as real
    ensures !IsSet(cfg.minCost) ==> c == cfg.perKmCost * distance as real * drivers as real
  {
    var total := cfg.perKmCost * distance as real;
    var floored := if IsSet(cfg.minCost) && total < cfg.minCost.value then cfg.minCost.value else total;
    floored * drivers as real
  }

  const SameDayThreshold := 15

  /** Same day: a flat minimum cost, replaced by the maximum cost from 15 km
      on when one is set, then once per driver. */
  function SameDayCost(cfg: ServiceConfig, distance: int, drivers: int): (c: real)
    ensures distance < SameDayThreshold ==> c == cfg.minCost.value * drivers as real
    ensures distance >= SameDayThreshold && IsSet(cfg.maxCost) ==> c == cfg.maxCost.value * drivers as real
    ensures !IsSet(cfg.maxCost) ==> c == cfg.minCost.value * drivers as real
  {
    var total := if IsSet(cfg.maxCost) && distance >= SameDayThreshold then cfg.maxCost.value else cfg.minCost.value;
    total * drivers as real
  }

  /** A maximum cost stored as "0.00" is on: from 15 km on, Same Day is free
      whatever its minimum cost. */
  lemma ZeroTextMaxCost(cfg: ServiceConfig, distance: int, drivers: int)
    requires cfg.maxCost == StoredNumber("0.00", 0.0) && distance >= SameDayThreshold
    ensures SameDayCost(cfg, distance, drivers) == 0.0
  {
  }

  function ServiceCost(kind: LegacyService, cfg: ServiceConfig, distance: int, drivers: int): real {
    match kind
    case InstantDelivery => InstantCost(cfg, distance, drivers)
    case SameDayDelivery => SameDayCost(cfg, distance, drivers)
  }

  /** The cost grows with the number of drivers when the settings are not
      negative. */
  lemma CostPerDriver(kind: LegacyService, cfg: ServiceConfig, distance: int, drivers: int)
    requires cfg.perKmCost >= 0.0 && cfg.minCost.value >= 0.0 && cfg.maxCost.value >= 0.0 && distance >= 0 && drivers >= 1
    ensures ServiceCost(kind, cfg, distance, drivers) >= 0.0
    ensures ServiceCost(kind, cfg, distance, drivers + 1) >= ServiceCost(kind, cfg, distance, drivers)
  {
    var one := ServiceCost(kind, cfg, distance, 1);
    assert cfg.perKmCost * distance as real >= 0.0 by {
      ProductNonNegative(cfg.perKmCost, distance as real);
    }
    assert one >= 0.0;
    CostScales(kind, cfg, distance, drivers);
    CostScales(kind, cfg, distance, drivers + 1);
    ScaleGrows(one, drivers);
  }

  /** The cost for several drivers is the cost for one, once per driver. */
  lemma CostScales(kind: LegacyService, cfg: ServiceConfig, distance: int, drivers: int)
    ensures ServiceCost(kind, cfg, distance, drivers) == ServiceCost(kind, cfg, distance, 1) * drivers as real
  {
  }

  lemma ProductNonNegative(a: real, b: real)
    requires a >= 0.0 && b >= 0.0
    ensures a * b >= 0.0
  {
  }

  lemma ScaleGrows(one: real, drivers: int)
    requires one >= 0.0 && drivers >= 1
    ensures one * drivers as real >= 0.0
    ensures one * (drivers + 1) as real == one * drivers as real + one
  {
    assert (drivers + 1) as real == drivers as real + 1.0;
  }

  /** "1 driver" or "N drivers". */
  function DriversText(drivers: nat): string {
    NatToString(drivers) + (if drivers == 1 then " driver" else " drivers")
  }

  /** The rate label: the title, the driver count only when there are several
      drivers, and the distance text only when it is to be shown. */
  function RateLabel(titleText: string, showDistance: string, drivers: nat, distanceText: string): (text: string)
    ensures StartsWith(text, titleText)
    ensures drivers <= 1 && showDistance != "yes" ==> text == titleText
    ensures drivers <= 1 && showDistance == "yes" ==> text == titleText + " (" + distanceText + ")"
    ensures drivers > 1 && showDistance == "yes" ==> text == titleText + " (" + DriversText(drivers) + ", " + distanceText + ")"
    ensures drivers > 1 && showDistance != "yes" ==> text == titleText + " (" + DriversText(drivers) + ")"
  {
    var suffix :=
      if showDistance == "yes" then
        if drivers > 1 then " (" + DriversText(drivers) + ", " + distanceText + ")" else " (" + distanceText + ")"
      else
        if drivers > 1 then " (" + DriversText(drivers) + ")" else "";
    assert (titleText + suffix)[..|titleText|] == titleText;
    titleText + suffix
  }

  /** A registered rate; the route travels with it as meta data. */
  datatype Rate = Rate(id: string, labelText: string, cost: real, route: Route)

  function ServiceSuffix(kind: LegacyService): string {
    match kind
    case InstantDelivery => "_instant"
    case SameDayDelivery => "_same_day"
  }

  function Natural(x: int): nat {
    if x < 0 then 0 else x
  }

  /** The rate a service adds for a cart and a route, or none. */
  function RateFor(methodId: string, title: string, kind: LegacyService, cfg: ServiceConfig,
                   lines: seq<CartLine>, route: Route): Option<Rate>
  {
    if cfg.enable != "yes" then None
    else if IsSet(cfg.maxDistance) && route.distance as real > cfg.maxDistance.value then None
    else
      match DriversFor(lines, cfg.limits)
      case None => None
      case Some(drivers) =>
        Some(Rate(methodId + ServiceSuffix(kind),
                  RateLabel(title + " - " + cfg.title, cfg.showDistance, Natural(drivers), route.distanceText),
                  ServiceCost(kind, cfg, route.distance, drivers), route))
  }

  /** A service adds a rate exactly when it is enabled, the route is within
      its distance limit (a route of exactly the limit passes) and no line
      alone breaks a package limit; the rate is charged for at least one
      driver. */
  lemma RateConditions(methodId: string, title: string, kind: LegacyService, cfg: ServiceConfig,
                       lines: seq<CartLine>, route: Route)
    ensures RateFor(methodId, title, kind, cfg, lines, route).Some? <==>
      cfg.enable == "yes"
      && !(IsSet(cfg.maxDistance) && route.distance as real > cfg.maxDistance.value)
      && forall i :: 0 <= i < |lines| ==> !LineTooBig(lines[i], cfg.limits)
    ensures RateFor(methodId, title, kind, cfg, lines, route).Some? ==>
      var drivers := DriversFor(lines, cfg.limits).value;
      1 <= drivers <= 1 + |lines|
      && RateFor(methodId, title, kind, cfg, lines, route).value.cost == ServiceCost(kind, cfg, route.distance, drivers)
      && RateFor(methodId, title, kind, cfg, lines, route).value.id == methodId + ServiceSuffix(kind)
  {
    SplitFacts(cfg.limits, EmptyBucket, 1, lines);
  }

  // ---------------------------------------------------------------------
  // Distance selection, destination and origin
  // ---------------------------------------------------------------------

  /** One element of the distance matrix: its status and the kilometres its
      distance text reads. */
  datatype Element = Element(status: string, km: real)

  /** One row of the matrix: the elements for one origin. */
  type Row = seq<Element>

  /** The decoded matrix response: rows of elements and the two address lists. */
  datatype MatrixResponse = MatrixResponse(rows: seq<Row>, destinationAddresses: seq<string>, originAddresses: seq<string>)

  /** The elements row after row. */
  function Flatten(rows: seq<Row>): seq<Element>
    decreases |rows|
  {
    if rows == [] then [] else Flatten(rows[..|rows| - 1]) + rows[|rows| - 1]
  }

  /** The running maximum of rounded-up OK distances, over elements in order. */
  function FarthestFrom(d: int, elems: seq<Element>): int
    decreases |elems|
  {
    if elems == [] then d
    else
      var e := elems[|elems| - 1];
      var d' := FarthestFrom(d, elems[..|elems| - 1]);
      if e.status == "OK" && Ceil(e.km) > d' then Ceil(e.km) else d'
  }

  /** The route of a response: the largest rounded-up OK distance, or none
      when that is 0. */
  function RouteOf(rows: seq<Row>): Option<Route> {
    var d := FarthestFrom(0, Flatten(rows));
    if d != 0 then Some(Route(d, IntToString(d) + " km")) else None
  }

  /** The distance-selection loop over rows and their elements. */
  method SelectDistance(rows: seq<Row>) returns (r: Option<Route>)
    ensures r == RouteOf(rows)
  {
    var distance := 0;
    var distanceText := "";
    for i := 0 to |rows|
      invariant distance == FarthestFrom(0, Flatten(rows[..i]))
      invariant distance != 0 ==> distanceText == IntToString(distance) + " km"
    {
      distance, distanceText := ScanRow(Flatten(rows[..i]), rows[i], distance, distanceText);
      assert rows[..i + 1][..i] == rows[..i];
    }
    assert rows[..|rows|] == rows;
    if distance != 0 {
      return Some(Route(distance, distanceText));
    }
    return None;
  }

  /** The inner loop over the elements of one row: an OK element farther
      than the distance so far replaces it, and its text with it. */
  method ScanRow(ghost done: seq<Element>, row: Row, d: int, text: string) returns (distance: int, distanceText: string)
    requires d == FarthestFrom(0, done)
    requires d != 0 ==> text == IntToString(d) + " km"
    ensures distance == FarthestFrom(0, done + row)
    ensures distance != 0 ==> distanceText == IntToString(distance) + " km"
  {
    distance, distanceText := d, text;
    assert done + row[..0] == done;
    for j := 0 to |row|
      invariant distance == FarthestFrom(0, done + row[..j])
      invariant distance != 0 ==> distanceText == IntToString(distance) + " km"
    {
      var element := row[j];
      FarthestStep(done, row, j);
      if element.status == "OK" {
        var elementDistance := Ceil(element.km);
        if elementDistance > distance {
          distance := elementDistance;
          distanceText := IntToString(distance) + " km";
        }
      }
    }
    assert row[..|row|] == row;
  }

  /** One more element of the row: it replaces the running maximum when it
      is OK and farther. */
  lemma FarthestStep(done: seq<Element>, row: Row, j: nat)
    requires j < |row|
    ensures var d := FarthestFrom(0, done + row[..j]);
      FarthestFrom(0, done + row[..j + 1])
      == if row[j].status == "OK" && Ceil(row[j].km) > d then Ceil(row[j].km) else d
  {
    var s := done + row[..j + 1];
    assert s[|s| - 1] == row[j];
    assert s[..|s| - 1] == done + row[..j];
  }

  /** The selected distance is the largest rounded-up distance of an OK
      element: no OK element is farther, and one of them is that far. */
  lemma {:induction false} FarthestIsMax(elems: seq<Element>)
    ensures FarthestFrom(0, elems) >= 0
    ensures forall i :: 0 <= i < |elems| && elems[i].status == "OK" ==> Ceil(elems[i].km) <= FarthestFrom(0, elems)
    ensures FarthestFrom(0, elems) > 0 ==>
      exists i :: 0 <= i < |elems| && elems[i].status == "OK" && Ceil(elems[i].km) == FarthestFrom(0, elems)
    decreases |elems|
  {
    if elems != [] {
      var init := elems[..|elems| - 1];
      FarthestIsMax(init);
      forall i | 0 <= i < |elems| - 1 ensures elems[i] == init[i] { }
      if FarthestFrom(0, init) > 0 && FarthestFrom(0, elems) == FarthestFrom(0, init) {
        var i :| 0 <= i < |init| && init[i].status == "OK" && Ceil(init[i].km) == FarthestFrom(0, init);
        assert elems[i] == init[i];
      }
    }
  }

  /** A response gives a route exactly when some OK element is at least
      partly a kilometre away; the route is the farthest such element. */
  lemma RouteIsFarthest(rows: seq<Row>)
    ensures var elems := Flatten(rows);
      (RouteOf(rows).Some? <==> exists i :: 0 <= i < |elems| && elems[i].status == "OK" && Ceil(elems[i].km) > 0)
      && (RouteOf(rows).Some? ==>
            (forall i :: 0 <= i < |elems| && elems[i].status == "OK" ==> Ceil(elems[i].km) <= RouteOf(rows).value.distance)
            && RouteOf(rows).value.distanceText == IntToString(RouteOf(rows).value.distance) + " km")
  {
    FarthestIsMax(Flatten(rows));
  }

  /** The address fields, in the order they are joined. */
  const DestinationKeys: seq<string> := ["address", "address_2", "city", "state", "postcode", "country"]

  /** On the cart's shipping calculator only the state and country are sent
      (city and postcode are off by default there). */
  const CalculatorKeys: seq<string> := ["state", "country"]

  type StateNames = map<string, string>

  /** The store's country and state names. */
  datatype Countries = Countries(names: map<string, string>, states: map<string, StateNames>)

  /** The text of one destination field: country and state codes become
      their names when known. */
  function FieldText(key: string, value: string, countryCode: Option<string>, countries: Countries): string {
    if key == "country" then
      var code := if countryCode.Some? && !EmptyString(countryCode.value) then countryCode.value else value;
      Trim(if code in countries.names then countries.names[code] else code)
    else if key == "state" then
      if countryCode.Some? && countryCode.value in countries.states && value in countries.states[countryCode.value]
      then Trim(countries.states[countryCode.value][value]) else Trim(value)
    else Trim(value)
  }

  /** The country code after visiting a field: the first state or country
      field fixes it. */
  function NextCountryCode(key: string, value: string, data: map<string, string>, countryCode: Option<string>): Option<string> {
    if countryCode.Some? && !EmptyString(countryCode.value) then countryCode
    else if key == "country" then Some(value)
    else if key == "state" then (if "country" in data then Some(data["country"]) else None)
    else countryCode
  }

  /** The parts joined for the destination, from the given country code over
      the remaining keys. */
  function PartsFrom(data: map<string, string>, countries: Countries, countryCode: Option<string>, keys: seq<string>): seq<string>
    decreases |keys|
  {
    if keys == [] then []
    else
      var key := keys[0];
      if key !in data || EmptyString(data[key]) then PartsFrom(data, countries, countryCode, keys[1..])
      else
        var code := NextCountryCode(key, data[key], data, countryCode);
        [FieldText(key, data[key], code, countries)] + PartsFrom(data, countries, code, keys[1..])
  }

  function DestinationInfo(data: map<string, string>, calculator: bool, countries: Countries): Option<string> {
    if data == map[] then None
    else Some(Join(PartsFrom(data, countries, None, if calculator then CalculatorKeys else DestinationKeys), ", "))
  }

  /** get_destination_info: the non-empty fields, trimmed, in the fixed order,
      joined with ", "; false for no destination at all. */
  method GetDestinationInfo(data: map<string, string>, calculator: bool, countries: Countries) returns (r: Option<string>)
    ensures r == DestinationInfo(data, calculator, countries)
    ensures r.None? <==> data == map[]
  {
    if data == map[] {
      return None;
    }
    var info := CollectParts(data, countries, if calculator then CalculatorKeys else DestinationKeys);
    return Some(Join(info, ", "));
  }

  lemma PartsStep(data: map<string, string>, countries: Countries, code: Option<string>, keys: seq<string>, i: nat)
    requires i < |keys|
    ensures var key := keys[i];
      PartsFrom(data, countries, code, keys[i..])
      == if key !in data || EmptyString(data[key]) then PartsFrom(data, countries, code, keys[i + 1..])
         else [FieldText(key, data[key], NextCountryCode(key, data[key], data, code), countries)]
              + PartsFrom(data, countries, NextCountryCode(key, data[key], data, code), keys[i + 1..])
  {
    assert keys[i..][0] == keys[i] && keys[i..][1..] == keys[i + 1..];
  }

  /** The filled fields, trimmed, in key order. */
  function FilledTrimmed(data: map<string, string>, keys: seq<string>): seq<string>
    decreases |keys|
  {
    if keys == [] then []
    else if keys[0] !in data || EmptyString(data[keys[0]]) then FilledTrimmed(data, keys[1..])
    else [Trim(data[keys[0]])] + FilledTrimmed(data, keys[1..])
  }

  /** The loop over the destination keys, collecting the parts. */
  method CollectParts(data: map<string, string>, countries: Countries, keys: seq<string>) returns (info: seq<string>)
    ensures info == PartsFrom(data, countries, None, keys)
  {
    info := [];
    var countryCode: Option<string> := None;
    for i := 0 to |keys|
      invariant info + PartsFrom(data, countries, countryCode, keys[i..]) == PartsFrom(data, countries, None, keys)
    {
      var key := keys[i];
      PartsStep(data, countries, countryCode, keys, i);
      if key in data && !EmptyString(data[key]) {
        var next := NextCountryCode(key, data[key], data, countryCode);
        var part := FieldText(key, data[key], next, countries);
        assert info + ([part] + PartsFrom(data, countries, next, keys[i + 1..]))
            == (info + [part]) + PartsFrom(data, countries, next, keys[i + 1..]);
        countryCode := next;
        info := info + [part];
      }
    }
    assert keys[|keys|..] == [];
    assert info + [] == info;
  }

  /** Missing and empty fields are skipped, and without a state or a country
      the destination is the filled fields, trimmed, in key order. */
  lemma {:induction false} PlainDestination(data: map<string, string>, countries: Countries, code: Option<string>, keys: seq<string>)
    requires "state" !in data && "country" !in data
    ensures PartsFrom(data, countries, code, keys) == FilledTrimmed(data, keys)
    decreases |keys|
  {
    if keys != [] {
      PlainDestination(data, countries, code, keys[1..]);
      if keys[0] in data && !EmptyString(data[keys[0]]) {
        PlainDestination(data, countries, NextCountryCode(keys[0], data[keys[0]], data, code), keys[1..]);
      }
    }
  }

  /** A known country code is replaced by the country's name. */
  lemma CountryName(data: map<string, string>, countries: Countries)
    requires data.Keys == {"country"}
    requires !EmptyString(data["country"]) && data["country"] in countries.names
    ensures DestinationInfo(data, false, countries) == Some(Trim(countries.names[data["country"]]))
  {
    var keys := DestinationKeys;
    assert keys[5] == "country" && keys[5..][1..] == [];
    assert PartsFrom(data, countries, None, keys[5..]) == [Trim(countries.names[data["country"]])];
    assert keys[4..][1..] == keys[5..];
    assert keys[3..][1..] == keys[4..];
    assert keys[2..][1..] == keys[3..];
    assert keys[1..][1..] == keys[2..];
    assert keys[1..] == keys[1..];
  }

  /** get_origin_info: "lat,lng" when both are given, else the empty string. */
  function OriginInfo(lat: string, lng: string): (r: string)
    ensures r == "" <==> EmptyString(lat) || EmptyString(lng)
    ensures r != "" ==> r == lat + "," + lng
  {
    if !EmptyString(lat) && !EmptyString(lng) then
      assert [lat, lng][1..] == [lng];
      assert |Join([lat, lng], ",")| > 0;
      Join([lat, lng], ",")
    else Join([], ",")
  }

  /** check_is_available: only an available method with a cart and a
      destination, in a store based in Indonesia. */
  function IsAvailable(available: bool, contentsEmpty: bool, destinationEmpty: bool, baseCountry: string): (r: bool)
    ensures r ==> available
    ensures r <==> available && !contentsEmpty && !destinationEmpty && baseCountry == "ID"
  {
    if !available || contentsEmpty || destinationEmpty then false
    else if baseCountry != "ID" then false
    else available
  }

  // ---------------------------------------------------------------------
  // The shipping method
  // ---------------------------------------------------------------------

  /** What api_request does after the HTTP exchange, given the decoded
      response (none when decoding failed). */
  function RouteFor(apiKey: string, destination: Option<string>, origin: string, response: Option<MatrixResponse>): Option<Route> {
    if EmptyString(apiKey) then None
    else if destination.None? || EmptyString(destination.value) then None
    else if EmptyString(origin) then None
    else if response.None? || response.value.rows == [] then None
    else if response.value.destinationAddresses == [] || response.value.originAddresses == [] then None
    else RouteOf(response.value.rows)
  }

  /** The cart as the shipping package carries it. */
  datatype Package = Package(lines: seq<CartLine>, destination: map<string, string>)

  function RateSeq(r: Option<Rate>): seq<Rate> {
    if r.Some? then [r.value] else []
  }

  class ShippingMethod {
    const id: string
    const title: string
    const apiKey: string
    const originLat: string
    const originLng: string
    const instant: ServiceConfig
    const sameDay: ServiceConfig
    /** The rates registered with the cart, in order. */
    var rates: seq<Rate>

    constructor(id: string, title: string, apiKey: string, originLat: string, originLng: string,
                instant: ServiceConfig, sameDay: ServiceConfig)
      ensures this.id == id && this.title == title && this.apiKey == apiKey
      ensures this.originLat == originLat && this.originLng == originLng
      ensures this.instant == instant && this.sameDay == sameDay
      ensures rates == []
    {
      this.id := id;
      this.title := title;
      this.apiKey := apiKey;
      this.originLat := originLat;
      this.originLng := originLng;
      this.instant := instant;
      this.sameDay := sameDay;
      rates := [];
    }

    function Config(kind: LegacyService): ServiceConfig {
      match kind
      case InstantDelivery => instant
      case SameDayDelivery => sameDay
    }

    /** The rates one call of calculate_shipping registers. */
    function NewRates(pkg: Package, calculator: bool, countries: Countries, response: Option<MatrixResponse>): seq<Rate> {
      var route := RouteFor(apiKey, DestinationInfo(pkg.destination, calculator, countries),
                            OriginInfo(originLat, originLng), response);
      if route.None? then []
      else RateSeq(RateFor(id, title, InstantDelivery, instant, pkg.lines, route.value))
           + RateSeq(RateFor(id, title, SameDayDelivery, sameDay, pkg.lines, route.value))
    }

    /** api_request, after the HTTP exchange. */
    method ApiRequest(destination: map<string, string>, calculator: bool, countries: Countries,
                      response: Option<MatrixResponse>) returns (r: Option<Route>)
      ensures r == RouteFor(apiKey, DestinationInfo(destination, calculator, countries),
                            OriginInfo(originLat, originLng), response)
    {
      if EmptyString(apiKey) {
        return None;
      }
      var info := GetDestinationInfo(destination, calculator, countries);
      if info.None? || EmptyString(info.value) {
        return None;
      }
      var origins := OriginInfo(originLat, originLng);
      if EmptyString(origins) {
        return None;
      }
      if response.None? || response.value.rows == [] {
        return None;
      }
      if response.value.destinationAddresses == [] || response.value.originAddresses == [] {
        return None;
      }
      r := SelectDistance(response.value.rows);
    }

    /** calculate_shipping_instant / calculate_shipping_same_day. */
    method CalculateServiceShipping(kind: LegacyService, lines: seq<CartLine>, route: Route)
      modifies this
      ensures rates == old(rates) + RateSeq(RateFor(id, title, kind, Config(kind), lines, route))
    {
      var cfg := Config(kind);
      if cfg.enable != "yes" {
        return;
      }
      if IsSet(cfg.maxDistance) && route.distance as real > cfg.maxDistance.value {
        return;
      }
      var drivers := SplitDrivers(lines, cfg.limits);
      if drivers.None? {
        return;
      }
      var count := drivers.value;
      var cost := ServiceCost(kind, cfg, route.distance, count);
      var labelText := RateLabel(title + " - " + cfg.title, cfg.showDistance, Natural(count), route.distanceText);
      rates := rates + [Rate(id + ServiceSuffix(kind), labelText, cost, route)];
    }

    /** calculate_shipping: find the route, then let each service add its rate. */
    method CalculateShipping(pkg: Package, calculator: bool, countries: Countries, response: Option<MatrixResponse>)
      modifies this
      ensures rates == old(rates) + NewRates(pkg, calculator, countries, response)
    {
      var route := ApiRequest(pkg.destination, calculator, countries, response);
      if route.None? {
        return;
      }
      CalculateServiceShipping(InstantDelivery, pkg.lines, route.value);
      CalculateServiceShipping(SameDayDelivery, pkg.lines, route.value);
    }

    /** At most one rate per service, the instant one first; no route means
        no rate at all. */
    lemma NewRatesShape(pkg: Package, calculator: bool, countries: Countries, response: Option<MatrixResponse>)
      ensures |NewRates(pkg, calculator, countries, response)| <= 2
      ensures var route := RouteFor(apiKey, DestinationInfo(pkg.destination, calculator, countries),
                                    OriginInfo(originLat, originLng), response);
              route.None? ==> NewRates(pkg, calculator, countries, response) == []
      ensures forall i :: 0 <= i < |NewRates(pkg, calculator, countries, response)| ==>
        NewRates(pkg, calculator, countries, response)[i].id in {id + "_instant", id + "_same_day"}
      ensures (EmptyString(apiKey) || EmptyString(originLat) || EmptyString(originLng) || pkg.destination == map[]) ==>
        NewRates(pkg, calculator, countries, response) == []
    {
    }
  }
}

/** The route post-processing of the current shipping method: choosing one
    route among the distance-matrix results with the preferred-route
    comparator, and normalising its distance to kilometres with one decimal. */
module Routes {
  import opened Values
  import opened Strings
  import opened Sorting
  import opened DistanceApi

  // ---------------------------------------------------------------------
  // Distance normalisation
  // ---------------------------------------------------------------------

  /** convert_distance_to_km: meters * 0.001 to one decimal, rounded half
      away from zero, in tenths of a kilometre. */
  function KmTenths(meters: int): (t: int)
    ensures meters >= 0 ==> 100 * t - 50 <= meters < 100 * t + 50
    ensures meters < 0 ==> 100 * t - 50 < meters <= 100 * t + 50
  {
    if meters >= 0 then (meters + 50) / 100 else -((-meters + 50) / 100)
  }

  /** The distance in tenths of a kilometre: 0 becomes 0.1, then rounded up
      to whole kilometres when asked. */
  function NormalisedTenths(meters: int, roundUp: bool): int {
    var t := KmTenths(meters);
    var t := if t == 0 then 1 else t;
    if roundUp then CeilDiv(t, 10) * 10 else t
  }

  /** PHP's text of a non-negative float with at most one decimal, given in
      tenths: no ".0" for whole numbers. */
  function UnsignedTenthsText(n: nat): (text: string)
    ensures n % 10 == 0 ==> text == NatToString(n / 10)
    ensures n % 10 != 0 ==> text == NatToString(n / 10) + "." + [DigitChar(n % 10)]
  {
    if n % 10 == 0 then NatToString(n / 10) else NatToString(n / 10) + "." + [DigitChar(n % 10)]
  }

  /** The same for any sign. */
  function TenthsText(t: int): string {
    (if t < 0 then "-" else "") + UnsignedTenthsText(Abs(t))
  }

  /** The displayed distance, in the metric unit. */
  function DistanceText(tenths: int): string {
    TenthsText(tenths) + " km"
  }

  /** A non-negative distance is never reported as 0: it is at least 0.1 km,
      and otherwise the nearest tenth. */
  lemma NormalisedPositive(meters: int)
    requires meters >= 0
    ensures NormalisedTenths(meters, false) >= 1
    ensures meters >= 50 ==> NormalisedTenths(meters, false) == KmTenths(meters)
    ensures meters < 50 ==> NormalisedTenths(meters, false) == 1
  {
  }

  /** Rounding up gives the smallest whole kilometre at or above the rounded
      distance. */
  lemma RoundUpWhole(meters: int)
    ensures var base := NormalisedTenths(meters, false);
      var up := NormalisedTenths(meters, true);
      up % 10 == 0 && base <= up < base + 10
  {
    var base := NormalisedTenths(meters, false);
    var c := CeilDiv(base, 10);
    assert (c - 1) * 10 < base <= c * 10;
    assert NormalisedTenths(meters, true) == c * 10;
  }

  /** The text of a whole number of kilometres is the plain integer. */
  lemma RoundUpText(meters: int)
    requires meters >= 0
    ensures DistanceText(NormalisedTenths(meters, true)) == NatToString(NormalisedTenths(meters, true) / 10) + " km"
  {
    NormalisedPositive(meters);
    RoundUpWhole(meters);
    var up := NormalisedTenths(meters, true);
    assert up >= 1 && up % 10 == 0;
    assert Abs(up) == up;
    assert TenthsText(up) == UnsignedTenthsText(up);
  }

  // ---------------------------------------------------------------------
  // Route comparators
  // ---------------------------------------------------------------------

  /** $result[key] for an API result: the results carry only "distance",
      "distance_text", "duration" and "duration_text"; any other key reads as
      null. */
  function ResultField(r: RouteResult, key: string): Option<int> {
    if key == "distance" then Some(r.distance)
    else if key == "duration" then Some(r.duration)
    else None
  }

  /** PHP's loose a < b between integers and null (null compares as false). */
  predicate LooseLess(a: Option<int>, b: Option<int>) {
    if a.Some? && b.Some? then a.value < b.value
    else if a.None? && b.Some? then b.value != 0
    else false
  }

  /** 0 when the two fields are identical, -1 when a's is smaller, else 1. */
  function Ascending(key: string): (RouteResult, RouteResult) -> int {
    (a: RouteResult, b: RouteResult) =>
      var x, y := ResultField(a, key), ResultField(b, key);
      if x == y then 0 else if LooseLess(x, y) then -1 else 1
  }

  /** 0 when the two fields are identical, -1 when a's is larger, else 1. */
  function Descending(key: string): (RouteResult, RouteResult) -> int {
    (a: RouteResult, b: RouteResult) =>
      var x, y := ResultField(a, key), ResultField(b, key);
      if x == y then 0 else if LooseLess(y, x) then -1 else 1
  }

  /** The key the distance comparators read, as the source writes it. */
  const DistanceSortKey := "max_distance"

  /** The comparator for the preferred route setting; the distance
      comparators read distanceKey. */
  function RouteComparator(preferred: string, distanceKey: string): (RouteResult, RouteResult) -> int {
    if preferred == "longest_duration" then Descending("duration")
    else if preferred == "longest_distance" then Descending(distanceKey)
    else if preferred == "shortest_duration" then Ascending("duration")
    else Ascending(distanceKey)
  }

  /** The route used: the first result after sorting, sorting only when
      there is more than one. */
  function PickRoute(results: seq<RouteResult>, cmp: (RouteResult, RouteResult) -> int): RouteResult
    requires results != []
  {
    if |results| > 1 then SortedBy(results, cmp)[0] else results[0]
  }

  /** The outcome of the route request, distances in tenths of a km. */
  datatype ApiRoute = ApiRoute(distance: int, distanceText: string, duration: int, durationText: string)

  /** The route and distance the shipping method works with. */
  function RouteFromResults(results: seq<RouteResult>, preferred: string, roundUp: bool): ApiRoute
    requires results != []
  {
    var r := PickRoute(results, RouteComparator(preferred, DistanceSortKey));
    var tenths := NormalisedTenths(r.distance, roundUp);
    ApiRoute(tenths, DistanceText(tenths), r.duration, r.durationText)
  }

  /** api_request: origin and destination must be given, then the API's
      answer decides. */
  function ApiRequestOutcome(origin: seq<(string, string)>, destination: string, resp: Response,
                             preferred: string, roundUp: bool): Result<ApiRoute>
  {
    if origin == [] then Err("Origin parameter is empty")
    else if EmptyString(destination) then Err("Destination parameter is empty")
    else
      var answer := Interpret(resp);
      if answer.Err? then Err(answer.message)
      else Ok(RouteFromResults(answer.value, preferred, roundUp))
  }

  // ---------------------------------------------------------------------
  // Properties of the comparators and of the chosen route
  // ---------------------------------------------------------------------

  predicate KnownKey(key: string) {
    key == "distance" || key == "duration"
  }

  function Field(r: RouteResult, key: string): int
    requires KnownKey(key)
  {
    ResultField(r, key).value
  }

  /** On a key the results carry, the comparators never put each of two
      results after the other. */
  lemma ComparatorsConnex(key: string)
    requires KnownKey(key)
    ensures Connex(Ascending(key)) && Connex(Descending(key))
  {
  }

  /** On a key the results do not carry, every pair compares equal. */
  lemma MissingKeyAllEqual(key: string, a: RouteResult, b: RouteResult)
    requires !KnownKey(key)
    ensures Ascending(key)(a, b) == 0 && Descending(key)(a, b) == 0
  {
  }

  /** The distance preferences, with the key as written, keep the API's
      order: the first result is used. */
  lemma DistancePreferenceIgnored(results: seq<RouteResult>, preferred: string)
    requires results != []
    requires preferred != "longest_duration" && preferred != "shortest_duration"
    ensures PickRoute(results, RouteComparator(preferred, DistanceSortKey)) == results[0]
  {
    var cmp := RouteComparator(preferred, DistanceSortKey);
    forall i, j | 0 <= i < |results| && 0 <= j < |results|
      ensures cmp(results[i], results[j]) == 0
    {
      MissingKeyAllEqual(DistanceSortKey, results[i], results[j]);
    }
    AllEqualKeepsOrder(results, cmp);
  }

  lemma {:induction false} AscendingChain(s: seq<RouteResult>, key: string, i: nat)
    requires KnownKey(key) && AdjacentSorted(s, Ascending(key))
    requires i < |s|
    ensures Field(s[0], key) <= Field(s[i], key)
    decreases i
  {
    if i > 0 {
      AscendingChain(s, key, i - 1);
      assert Ascending(key)(s[i - 1], s[i]) <= 0;
    }
  }

  lemma {:induction false} DescendingChain(s: seq<RouteResult>, key: string, i: nat)
    requires KnownKey(key) && AdjacentSorted(s, Descending(key))
    requires i < |s|
    ensures Field(s[0], key) >= Field(s[i], key)
    decreases i
  {
    if i > 0 {
      DescendingChain(s, key, i - 1);
      assert Descending(key)(s[i - 1], s[i]) <= 0;
    }
  }

  /** Sorting ascending on a carried key puts a smallest result first. */
  lemma SmallestFirst(results: seq<RouteResult>, key: string)
    requires results != [] && KnownKey(key)
    ensures PickRoute(results, Ascending(key)) in results
    ensures forall r :: r in results ==> Field(PickRoute(results, Ascending(key)), key) <= Field(r, key)
  {
    if |results| > 1 {
      var sorted := SortedBy(results, Ascending(key));
      ComparatorsConnex(key);
      SortedBySorts(results, Ascending(key));
      SortedByPermutes(results, Ascending(key));
      assert sorted[0] in multiset(sorted);
      forall r | r in results
        ensures Field(sorted[0], key) <= Field(r, key)
      {
        assert r in multiset(sorted);
        var i :| 0 <= i < |sorted| && sorted[i] == r;
        AscendingChain(sorted, key, i);
      }
    }
  }

  /** Sorting descending on a carried key puts a largest result first. */
  lemma LargestFirst(results: seq<RouteResult>, key: string)
    requires results != [] && KnownKey(key)
    ensures PickRoute(results, Descending(key)) in results
    ensures forall r :: r in results ==> Field(PickRoute(results, Descending(key)), key) >= Field(r, key)
  {
    if |results| > 1 {
      var sorted := SortedBy(results, Descending(key));
      ComparatorsConnex(key);
      SortedBySorts(results, Descending(key));
      SortedByPermutes(results, Descending(key));
      assert sorted[0] in multiset(sorted);
      forall r | r in results
        ensures Field(sorted[0], key) >= Field(r, key)
      {
        assert r in multiset(sorted);
        var i :| 0 <= i < |sorted| && sorted[i] == r;
        DescendingChain(sorted, key, i);
      }
    }
  }

  /** The duration preferences pick a quickest, or a slowest, route. */
  lemma DurationPreference(results: seq<RouteResult>)
    requires results != []
    ensures var r := PickRoute(results, RouteComparator("shortest_duration", DistanceSortKey));
      r in results && forall x :: x in results ==> r.duration <= x.duration
    ensures var r := PickRoute(results, RouteComparator("longest_duration", DistanceSortKey));
      r in results && forall x :: x in results ==> r.duration >= x.duration
  {
    SmallestFirst(results, "duration");
    LargestFirst(results, "duration");
  }

  /** With the "distance" key the distance preferences pick a closest, or a
      farthest, route. */
  lemma IntendedDistancePreference(results: seq<RouteResult>)
    requires results != []
    ensures var r := PickRoute(results, RouteComparator("shortest_distance", "distance"));
      r in results && forall x :: x in results ==> r.distance <= x.distance
    ensures var r := PickRoute(results, RouteComparator("longest_distance", "distance"));
      r in results && forall x :: x in results ==> r.distance >= x.distance
  {
    SmallestFirst(results, "distance");
    LargestFirst(results, "distance");
  }

  const FarRoute := RouteResult(9000, "9 km", 600, "10 mins")
  const NearRoute := RouteResult(3000, "3 km", 900, "15 mins")

  /** Two routes, the first one farther: "shortest_distance" as written still
      charges the 9 km route. */
  lemma ShortestDistanceAsWritten()
    ensures RouteFromResults([FarRoute, NearRoute], "shortest_distance", false).distance == 90
  {
    DistancePreferenceIgnored([FarRoute, NearRoute], "shortest_distance");
  }

  /** The same two routes with the "distance" key: the 3 km route is used. */
  lemma ShortestDistanceIntended()
    ensures PickRoute([FarRoute, NearRoute], RouteComparator("shortest_distance", "distance")) == NearRoute
  {
    IntendedDistancePreference([FarRoute, NearRoute]);
  }

  /** Every failure before the API answers is reported, and an answer with
      routes gives the route picked by the preferred comparator among the
      usable results, with its distance normalised. */
  lemma ApiRequestFailures(origin: seq<(string, string)>, destination: string, resp: Response, preferred: string, roundUp: bool)
    ensures origin == [] ==> ApiRequestOutcome(origin, destination, resp, preferred, roundUp) == Err("Origin parameter is empty")
    ensures origin != [] && EmptyString(destination) ==>
      ApiRequestOutcome(origin, destination, resp, preferred, roundUp) == Err("Destination parameter is empty")
    ensures origin != [] && !EmptyString(destination) && Interpret(resp).Err? ==>
      ApiRequestOutcome(origin, destination, resp, preferred, roundUp) == Err(Interpret(resp).message)
    ensures origin != [] && !EmptyString(destination) && Interpret(resp).Ok? ==>
      ApiRequestOutcome(origin, destination, resp, preferred, roundUp)
        == Ok(RouteFromResults(Interpret(resp).value, preferred, roundUp))
    ensures origin != [] && !EmptyString(destination) && Interpret(resp).Ok? ==>
      exists r :: r in OkResults(Flatten(resp.rows)) &&
        ApiRequestOutcome(origin, destination, resp, preferred, roundUp)
          == Ok(ApiRoute(NormalisedTenths(r.distance, roundUp), DistanceText(NormalisedTenths(r.distance, roundUp)),
                         r.duration, r.durationText))
  {
    if origin != [] && !EmptyString(destination) && Interpret(resp).Ok? {
      var results := Interpret(resp).value;
      PickedFromResults(results, RouteComparator(preferred, DistanceSortKey));
    }
  }

  /** The picked route is one of the results. */
  lemma PickedFromResults(results: seq<RouteResult>, cmp: (RouteResult, RouteResult) -> int)
    requires results != []
    ensures PickRoute(results, cmp) in results
  {
    if |results| > 1 {
      SortedByPermutes(results, cmp);
      assert SortedBy(results, cmp)[0] in multiset(SortedBy(results, cmp));
    }
  }
}

# WooGoSend shipping-cost model

WooGoSend is a WooCommerce shipping method for GoSend couriers in Indonesia.
The shipping method asks the Google Maps Distance Matrix service for the route
between the store and the customer. It turns the cart into a package envelope
and lets each GoSend service (Instant and Same Day) quote a cost for that route.
Every service that quotes a cost becomes a shipping rate. The plugin ships two
generations of this logic, and both are modelled:

- **Current version.** Per-service classes with settings looked up under
  `<key>_<slug>` (`Services`, `InstantService`, `SameDayService`). The shipping
  method class (`ShippingMethods.ShippingMethod`) builds the envelope
  (`CartEnvelope`), interprets the distance-matrix answer (`DistanceApi`),
  normalises and picks a route (`Routes`) and migrates stored settings between
  plugin versions (`Migrations`, `ShippingMethods.Migration`).
- **Older version.** A service-id keyed cost engine (`LegacyServices`) and the
  original shipping method with its greedy driver splitter and flat pricing
  (`LegacyShipping`).
- **Helpers.** Ordered-map insertion and the dotted-path translation lookup
  (`Helpers`).

PHP arrays are modelled as ordered association lists (`OrderedMap`, where every
key occurs once). PHP truthiness, `intval` (leading whitespace, an optional sign and the run of
digits), `absint`, `(int)` casts and `ceil` are written out in `Values`. Weights, dimensions and costs are exact `real`s.
API distances are integer tenths of a kilometre.

The current engine keeps the driver count it computes, which is 0 for an
empty envelope (includes/classes/class-woogosend-services.php:287-289). It
charges only the distance beyond `per_km_min_distance` (:318-322).

## Model

| member | source | states |
|---|---|---|
| Values.Trunc | includes/classes/class-woogosend-services.php:279-283 | PHP `(int)` of a float truncates toward zero: the result is within one of the input, on the zero side |
| Values.CeilDiv | includes/classes/class-woogosend-services.php:287-288 | `ceil(a / b)` for a positive divisor: the least c with a <= c·b |
| Values.CeilDivIsCeil | includes/classes/class-woogosend-services.php:287-288 | the integer ceiling division equals `ceil` of the exact real quotient |
| Values.LeadingIntPrefixes | includes/classes/class-woogosend-services.php:313-316 | `absint` reads a setting through `intval`: leading whitespace and a plus sign leave the number unchanged, a minus sign negates it |
| Values.LeadingIntExamples | includes/classes/class-woogosend-services.php:313-316 | `intval(" 12")` is 12, `intval("+5")` is 5, `intval("\t-7")` is -7, and `intval("+ 5")` is 0 |
| Values.MaxOf | includes/classes/class-woogosend-shipping-method.php:1164-1169 | PHP `max` of a non-empty list is an element of the list and bounds every element |
| OrderedMap.Get | includes/helpers.php:161 | `array_key_exists`: a lookup finds a value exactly when the key is present |
| OrderedMap.Put | includes/classes/class-woogosend-shipping-method.php:190-192 | assigning `$a[$k] = $v` adds k to the keys, appends a new key at the end, keeps keys distinct and makes k read v |
| OrderedMap.Remove | includes/classes/class-woogosend-shipping-method.php:194-196 | `unset($a[$k])` removes exactly k from the keys and keeps keys distinct |
| OrderedMap.GetPutOther | includes/classes/class-woogosend-shipping-method.php:190-192 | writing one key leaves every other key's value unchanged |
| OrderedMap.KeysIndex | includes/helpers.php:161 | a key is present exactly when some entry carries it |
| Helpers.InsertBefore | includes/helpers.php:160-176 | the loop computes the insert-before result; with the anchor absent the array is returned unchanged, otherwise the keys gain exactly the new key |
| Helpers.InsertAfter | includes/helpers.php:190-206 | the mirror of InsertBefore: unchanged when the anchor is absent, otherwise the keys gain exactly the new key |
| Helpers.BeforeKeys | includes/helpers.php:165-175 | the copy loop yields the copied keys plus the new key exactly when the anchor was met |
| Helpers.AfterKeys | includes/helpers.php:195-205 | the same key-set statement for the insert-after loop |
| Helpers.BeforeFromSplices | includes/helpers.php:165-175 | on distinct keys with a fresh new key, the copy loop equals splicing the new entry in front of the anchor entry |
| Helpers.AfterFromSplices | includes/helpers.php:195-205 | on distinct keys with a fresh new key, the copy loop equals splicing the new entry behind the anchor entry |
| Helpers.SplicedBeforeAt | includes/helpers.php:165-175 | the splice places the new entry at the anchor's index, with everything else in order |
| Helpers.SplicedAfterAt | includes/helpers.php:195-205 | the splice places the new entry just after the anchor's index, with everything else in order |
| Helpers.SplicedUntouched | includes/helpers.php:161-163 | without the anchor, neither splice changes anything |
| Helpers.InsertBeforePosition | includes/helpers.php:160-176 | woogosend_array_insert_before puts a fresh key immediately before the anchor and keeps all other entries in their relative order |
| Helpers.InsertAfterPosition | includes/helpers.php:190-206 | woogosend_array_insert_after puts a fresh key immediately after the anchor and keeps all other entries in their relative order |
| Helpers.InsertKeepsDistinct | includes/helpers.php:160-206 | both inserts of a fresh key yield an array with distinct keys |
| Helpers.I18n | includes/helpers.php:39-93 | woogosend_i18n is the lookup in its translation table; an empty key returns the whole table |
| Helpers.LookupTable | includes/helpers.php:81-93 | the reference walk over the dot-separated path computes the lookup (the value, or the default for null, or the string-offset error); an empty key returns the whole table |
| Helpers.WalkNull | includes/helpers.php:84-86 | once the walk has reached null, every further segment keeps it null |
| Helpers.WalkConcat | includes/helpers.php:84-86 | walking a path in two parts is the same as walking it at once, and an error stops the walk |
| Helpers.LookupTopLevel | includes/helpers.php:81-89 | an undotted key returns its table entry, or the default when the key is missing |
| Helpers.LookupNested | includes/helpers.php:82-89 | a two-segment key looks the second segment up inside the first segment's entry; a missing entry gives the default, and a string entry gives the PHP string-offset error |
| Helpers.LookupNestedMessage | includes/helpers.php:59 | `errors.field_required` resolves to the "%s field is required" message |
| Helpers.LookupMissingNested | includes/helpers.php:89 | a missing nested key returns the caller's default |
| Helpers.LookupThroughString | includes/helpers.php:84-86 | walking into a string entry fails with the string-offset error |
| Services.FieldKeyShape | includes/classes/class-woogosend-services.php:346-348 | a field key starts with the raw key and ends with `_` and the slug |
| Services.FieldKeyInjective | includes/classes/class-woogosend-services.php:346-348 | different raw keys never share a field key |
| Services.SettingLookup | includes/classes/class-woogosend-services.php:356-383 | a stored value is returned with or without defaults; a missing one reads as null without defaults and as the service default with them |
| Services.DriversCountLeast | includes/classes/class-woogosend-services.php:287-289 | the driver count is the least d that carries both the weight and the volume, so one driver fewer would overload one of them |
| Services.DistanceGate | includes/classes/class-woogosend-services.php:266-271 | the cost is refused with `max_distance_exceeded` exactly when a truthy maximum distance is below the distance; equality passes |
| Services.DriversBound | includes/classes/class-woogosend-services.php:292-310 | a quote never has more drivers than max(1, package quantity) |
| Services.EmptyEnvelope | includes/classes/class-woogosend-services.php:279-289 | an all-zero envelope within the distance gives 0 drivers and the plain per-driver total |
| Services.WeightCheckedFirst | includes/classes/class-woogosend-services.php:296-309 | outside multi-driver mode, a package over both limits is refused for weight, not dimension |
| Services.MultipleDriversAccept | includes/classes/class-woogosend-services.php:292-298 | with multi-driver mode on, quantity >= 2 and drivers <= quantity, the cost is quoted with the full driver count |
| Services.SingleDriverWithinLimits | includes/classes/class-woogosend-services.php:296-310 | a quote outside multi-driver mode has a package within both limits and at most one driver |
| Services.PerKmChargeIsExcess | includes/classes/class-woogosend-services.php:313-322 | the per-km part is per_km_cost × the distance beyond the free distance, never negative |
| Services.ClampBounds | includes/classes/class-woogosend-services.php:324-328 | the floor fires below min_cost; the cap applies only when the floor did not; the bounds hold when min <= max |
| Services.QuoteTotal | includes/classes/class-woogosend-services.php:313-337 | a quote is the driver quote of the non-negative per-driver total and the Drivers count, so its total is never negative |
| Services.PerDriverNonNegative | includes/classes/class-woogosend-services.php:313-328 | the absint cost settings make the per-driver total non-negative |
| Services.ScaleByDrivers | includes/classes/class-woogosend-services.php:330-337 | the quoted total is the per-driver total times max(1, drivers): multiplied only when there is more than one driver |
| Services.FieldEntriesKeys | includes/classes/class-woogosend-services.php:86-97 | the field table has one entry per raw key, in order, under the slug-suffixed key |
| Services.SettingEntriesKeys | includes/classes/class-woogosend-services.php:391-399 | get_settings has one entry per raw key, in order, holding get_setting of that key |
| Services.FieldsContents | includes/classes/class-woogosend-services.php:84-100 | every field key carries the slug suffix, defaults come from default_settings, and the title default is the service label |
| Services.Service.constructor | includes/classes/class-woogosend-services.php:39-53 | a new service has no settings and no cached fields |
| Services.Service.SetSettings | includes/classes/class-woogosend-services.php:407-409 | set_settings replaces the stored settings and nothing else |
| Services.Service.GetFields | includes/classes/class-woogosend-services.php:84-100 | get_fields returns the field table, caches it on first use and returns the cache afterwards |
| Services.Service.GetSettings | includes/classes/class-woogosend-services.php:391-399 | get_settings returns every raw key with its get_setting value |
| Services.Service.CalculateCost | includes/classes/class-woogosend-services.php:260-338 | a non-empty settings argument replaces the stored settings first; the result is the cost computed on the settings then stored |
| ServiceDefaults.InstantLimits | includes/services/class-woogosend-services-instant.php:39-49 | Instant defaults: 20 kg, volume 70×50×50 = 175000, per-km 2500 from 0 km, floor 25000, no cap, 40 km maximum |
| ServiceDefaults.SameDayLimits | includes/services/class-woogosend-services-same-day.php:41-51 | Same Day defaults: 7 kg, volume 40×40×17 = 27200, per-km 2500 beyond 15 km, floor 15000, cap 25000, 40 km maximum |
| ServiceDefaults.OneDriver | includes/classes/class-woogosend-services.php:287-289 | a package within the default limits needs exactly one driver |
| ServiceDefaults.InstantDefaultCost | includes/services/class-woogosend-services-instant.php:39-49 | with Instant defaults, a distance up to 40 costs max(25000, 2500 × distance) for one driver; beyond 40 it is refused |
| ServiceDefaults.InstantExamples | includes/services/class-woogosend-services-instant.php:39-49 | Instant defaults price 5 and 10 km at 25000, 12 km at 30000 and 40 km at 100000 |
| ServiceDefaults.SameDayDefaultCost | includes/services/class-woogosend-services-same-day.php:41-51 | with Same Day defaults, up to 15 km costs 15000; up to 40 km the excess charge is floored at 15000 and capped at 25000; beyond 40 it is refused |
| ServiceDefaults.SameDayExamples | includes/services/class-woogosend-services-same-day.php:41-51 | Same Day defaults price 10 and 20 km at 15000 and 40 km at 25000 |
| CartEnvelope.GetEnvelope | includes/classes/class-woogosend-shipping-method.php:1105-1196 | the loop over cart lines computes the envelope: summed weights and heights, largest width and length, summed quantity, 0 for an empty list |
| CartEnvelope.EnvelopeTotals | includes/classes/class-woogosend-shipping-method.php:1120-1177 | the envelope weight is Σ weight×qty, its height Σ height×qty and its quantity Σ qty over the counted lines |
| CartEnvelope.WidthsFrom | includes/classes/class-woogosend-shipping-method.php:1137-1142 | the width list holds exactly the non-zero widths of the counted lines |
| CartEnvelope.EnvelopeWidth | includes/classes/class-woogosend-shipping-method.php:1162-1165 | the envelope width bounds every counted width and is one of them, or 0 when none is set |
| CartEnvelope.LengthsFrom | includes/classes/class-woogosend-shipping-method.php:1144-1149 | the length list holds exactly the non-zero lengths of the counted lines |
| CartEnvelope.EnvelopeLength | includes/classes/class-woogosend-shipping-method.php:1166-1169 | the envelope length bounds every counted length and is one of them, or 0 when none is set |
| CartEnvelope.NothingCounted | includes/classes/class-woogosend-shipping-method.php:1158-1177 | a cart with no counted line gives the all-zero envelope |
| CartEnvelope.SkipZeroQuantity | includes/classes/class-woogosend-shipping-method.php:1122-1126 | a line whose absint quantity is 0 does not change the envelope |
| DistanceApi.FlattenArgs | includes/class-woogosend-api.php:63-67 | every list-valued argument is replaced by its elements joined with ",", in place, with the keys unchanged |
| DistanceApi.ParseArgsGet | includes/class-woogosend-api.php:50-62 | wp_parse_args: a given argument wins, any other key reads its default |
| DistanceApi.ParseArgsKeys | includes/class-woogosend-api.php:50-62 | the parsed arguments hold the default keys and the given keys |
| DistanceApi.ValidationOrigin | includes/class-woogosend-api.php:53-54 | in validation mode the origin defaults to the default coordinates and the destination to the test coordinates, each sent as "lat,lng" |
| DistanceApi.Interpret | includes/class-woogosend-api.php:97-146 | a successful answer had status OK and is the non-empty list of OK elements in order |
| DistanceApi.CalculateDistance | includes/class-woogosend-api.php:97-146 | the nested loops and the error scan compute the interpretation of the decoded response |
| DistanceApi.StatusGate | includes/class-woogosend-api.php:97-105 | a status other than OK is an error naming the status, plus error_message when present |
| DistanceApi.ResultsPartition | includes/class-woogosend-api.php:107-126 | every element is either an OK result or a failed status; there are no results exactly when no element is OK |
| DistanceApi.PartialSuccess | includes/class-woogosend-api.php:128-130 | one OK element is enough for success, however many others failed |
| DistanceApi.FirstExplainedWins | includes/class-woogosend-api.php:132-144 | the first failed status that has a known message selects it; earlier unknown statuses are skipped |
| DistanceApi.NoExplanation | includes/class-woogosend-api.php:138-146 | without a known status, no message is selected |
| DistanceApi.NoRouteMessage | includes/class-woogosend-api.php:128-146 | with status OK and no OK element, the error carries the first explained failure's message, or "No results found" when none is explained |
| DistanceApi.ZeroResultsMessage | includes/class-woogosend-api.php:132-146 | an unknown status followed by ZERO_RESULTS gives the "No route could be found" error |
| Routes.KmTenths | includes/classes/class-woogosend-shipping-method.php:1398-1400 | meters × 0.001 rounded to one decimal, half away from zero |
| Routes.UnsignedTenthsText | includes/classes/class-woogosend-shipping-method.php:792-800 | the distance text prints whole kilometres without a decimal and others with one |
| Routes.NormalisedPositive | includes/classes/class-woogosend-shipping-method.php:792-796 | a non-negative distance is at least 0.1 km: a zero result becomes 0.1 |
| Routes.RoundUpWhole | includes/classes/class-woogosend-shipping-method.php:796-800 | with round-up on, the distance is the least whole kilometre at or above the normalised distance |
| Routes.RoundUpText | includes/classes/class-woogosend-shipping-method.php:796-808 | a rounded-up distance prints as a whole number of km |
| Routes.ComparatorsConnex | includes/classes/class-woogosend-shipping-method.php:1409-1435 | the duration comparators never call both a > b and b > a, so usort sorts by them |
| Routes.MissingKeyAllEqual | includes/classes/class-woogosend-shipping-method.php:1437-1449 | a comparator on a key the results do not carry calls every pair equal |
| Routes.SmallestFirst | includes/classes/class-woogosend-shipping-method.php:1409-1421 | sorting ascending by a field picks a result with the smallest value of that field |
| Routes.LargestFirst | includes/classes/class-woogosend-shipping-method.php:1423-1435 | sorting descending by a field picks a result with the largest value of that field |
| Routes.DurationPreference | includes/classes/class-woogosend-shipping-method.php:772-790 | shortest_duration picks a quickest route and longest_duration a slowest one |
| Routes.DistancePreferenceIgnored | includes/classes/class-woogosend-shipping-method.php:1437-1472 | as written, the distance preferences leave the order unchanged and pick the first result |
| Routes.ShortestDistanceAsWritten | includes/classes/class-woogosend-shipping-method.php:1437-1449 | as written, shortest_distance on [9 km, 3 km] picks 9 km |
| Routes.IntendedDistancePreference | includes/classes/class-woogosend-shipping-method.php:1437-1472 | comparing the `distance` field, shortest_distance picks a shortest route and longest_distance a longest one |
| Routes.ShortestDistanceIntended | includes/classes/class-woogosend-shipping-method.php:1437-1449 | comparing the `distance` field, shortest_distance on [9 km, 3 km] picks 3 km |
| Routes.ApiRequestFailures | includes/classes/class-woogosend-shipping-method.php:710-808 | no origin, an empty destination and an API error each end the request with an error; otherwise the route is the one the preferred comparator picks, which is one of the usable results, with its distance normalised |
| Sorting.Usort | includes/classes/class-woogosend-shipping-method.php:176-178 | usort returns the stable sorted order, a permutation of its input |
| Sorting.SortedByPermutes | includes/classes/class-woogosend-shipping-method.php:176-178 | sorting only reorders the elements |
| Sorting.SortedBySorts | includes/classes/class-woogosend-shipping-method.php:176-178 | with a comparator that never says both a > b and b > a, neighbours end up in order |
| Sorting.AllEqualKeepsOrder | includes/classes/class-woogosend-shipping-method.php:1437-1449 | a comparator that calls everything equal leaves the order unchanged |
| Sorting.InsertAt | includes/classes/class-woogosend-shipping-method.php:176-178 | one insertion lands just after the last element that does not compare above it |
| Migrations.VersionLeTotal | includes/classes/class-woogosend-shipping-method.php:1451-1460 | version comparison is total |
| Migrations.VersionLeTransitive | includes/classes/class-woogosend-shipping-method.php:1451-1460 | version comparison is transitive |
| Migrations.VersionLeAntisymmetric | includes/classes/class-woogosend-shipping-method.php:1451-1460 | versions that compare both ways are equal |
| Migrations.VersionLeReflexive | includes/classes/class-woogosend-shipping-method.php:1451-1460 | every version compares <= itself |
| Migrations.SortVersionOrder | includes/classes/class-woogosend-shipping-method.php:1451-1460 | sort_version puts 1.3.0 before 1.4.0 and never says both a > b and b > a |
| Migrations.OptionsPair | includes/migrations/class-woogosend-migration-1-3-0.php:48-54 | the 1.3.0 pairs map api_key, travel_mode and route_restrictions to the old gmaps_* keys |
| Migrations.DedupMembers | includes/classes/class-woogosend-shipping-method.php:163-174 | the collected migrations are the discovered ones, each once |
| Migrations.V130NeverRecorded | includes/migrations/class-woogosend-migration-1-3-0.php:32-55 | 1.3.0 has no updates or deletes, so its step changes neither settings nor version |
| Migrations.V140Updates | includes/migrations/class-woogosend-migration-1-4-0.php:48-63 | with api_key_split yes, api_key takes api_key_server and api_key_picker the old api_key; otherwise only api_key_picker is set; missing keys read '', 'no', '' |
| Migrations.RemoveAllKeys | includes/classes/class-woogosend-shipping-method.php:194-196 | the delete loop removes exactly the listed keys |
| Migrations.PutAllKeys | includes/classes/class-woogosend-shipping-method.php:190-192 | the update loop adds exactly the updated keys |
| Migrations.V140Step | includes/migrations/class-woogosend-migration-1-4-0.php:48-75 | a pending 1.4.0 step records 1.4.0, sets api_key_picker and leaves neither api_key_split nor api_key_server |
| Migrations.AtV140Stays | includes/classes/class-woogosend-shipping-method.php:180-183 | once at 1.4.0, no later step changes anything |
| Migrations.RunReachesV140 | includes/classes/class-woogosend-shipping-method.php:180-206 | running a list that contains a pending 1.4.0 ends at 1.4.0 without the split keys |
| Migrations.MigrationSkipped | includes/classes/class-woogosend-shipping-method.php:147-155 | without an instance id, or with a stored version >= the plugin version, nothing changes |
| Migrations.MigrationReachesV140 | includes/classes/class-woogosend-shipping-method.php:146-207 | with an instance id and 1.4.0 pending, migrate_data ends at 1.4.0 |
| Migrations.PendingSorted | includes/classes/class-woogosend-shipping-method.php:163-178 | the migrations are applied once each, in ascending version order |
| ShippingMethods.NewRates | includes/classes/class-woogosend-shipping-method.php:968-999 | no origin, an empty destination or an API error add no rates at all |
| ShippingMethods.OriginInfo | includes/classes/class-woogosend-shipping-method.php:1204-1236 | the origin is the coordinates or the address by origin type, and empty exactly when the chosen fields are empty |
| ShippingMethods.RateFieldValue | includes/classes/class-woogosend-shipping-method.php:488-500 | the row value or the default; with cost_type fixed, rate_class_* reads 0 and min_cost reads rate_class_0 |
| ShippingMethods.FixedCostRow | includes/classes/class-woogosend-shipping-method.php:488-500 | on a fixed row, min_cost is the first class rate and every class rate reads 0 |
| ShippingMethods.Kinds | includes/classes/class-woogosend-shipping-method.php:214-231 | the services' kinds, one per registered service, in order |
| ShippingMethods.ServiceRateCases | includes/classes/class-woogosend-shipping-method.php:1000-1089 | a service adds a rate exactly when it is enabled and quotes; the rate carries the quote's cost, the route and the service id, and 0 drivers become 1 |
| ShippingMethods.QuoteDriversNonNegative | includes/classes/class-woogosend-services.php:287-289 | a quote for a non-negative envelope has a non-negative driver count |
| ShippingMethods.RatesDriversPositive | includes/classes/class-woogosend-shipping-method.php:1058-1083 | every added rate has at least one driver and a non-negative cost |
| ShippingMethods.RatesForAppend | includes/classes/class-woogosend-shipping-method.php:1000-1089 | the rates for two lists of services are the rates for each, in order |
| ShippingMethods.SkippedService | includes/classes/class-woogosend-shipping-method.php:1012-1050 | a disabled or failing service adds nothing and later services are still evaluated |
| ShippingMethods.RatesFromServices | includes/classes/class-woogosend-shipping-method.php:1000-1089 | every rate comes from a service that quoted, and every service that quoted has its rate |
| ShippingMethods.RateIdsDistinct | includes/classes/class-woogosend-shipping-method.php:1073-1083 | the Instant and Same Day rates of one instance have different ids |
| ShippingMethods.RateLabelCases | includes/classes/class-woogosend-shipping-method.php:1052-1071 | the label gets "N drivers" only above one driver and the distance only when show_distance is yes |
| ShippingMethods.NoOriginNoRates | includes/classes/class-woogosend-shipping-method.php:975-999 | a missing store location adds no rates |
| ShippingMethods.ShippingMethod.constructor | includes/classes/class-woogosend-shipping-method.php:86-112 | the method stores its options and runs the settings migration |
| ShippingMethods.ShippingMethod.MigrateData | includes/classes/class-woogosend-shipping-method.php:146-207 | the settings and data version become those of applying the pending migrations in version order |
| ShippingMethods.ShippingMethod.ApplyMigration | includes/classes/class-woogosend-shipping-method.php:184-204 | one migration writes its updates, then removes its deletes, then records its version, unless it has neither |
| ShippingMethods.ShippingMethod.ApiRequest | includes/classes/class-woogosend-shipping-method.php:669-850 | api_request validates origin and destination, interprets the response and returns the preferred, normalised route |
| ShippingMethods.ShippingMethod.CalculateShipping | includes/classes/class-woogosend-shipping-method.php:968-1092 | the rate list grows by exactly the new rates; the settings and version are untouched; each service's settings become the instance settings when a route was found |
| ShippingMethods.ShippingMethod.AddServiceRates | includes/classes/class-woogosend-shipping-method.php:1000-1089 | the service loop appends the rates of every service, in order |
| ShippingMethods.ShippingMethod.AddServiceRate | includes/classes/class-woogosend-shipping-method.php:1012-1088 | one service appends its rate when it is enabled and quotes, and nothing otherwise |
| ShippingMethods.Migration.constructor | includes/classes/class-woogosend-migration.php:46-50 | the shipping instance is stored only when one is given |
| ShippingMethods.Migration.SetInstance | includes/classes/class-woogosend-migration.php:68-70 | set_instance replaces the stored instance |
| ShippingMethods.Migration.GetUpdateOptions | includes/classes/class-woogosend-migration.php:57-59 | the updates of the migration's version, read from the stored instance's settings; empty for 1.3.0 |
| ShippingMethods.Migration.GetDeleteOptions | includes/migrations/class-woogosend-migration-1-4-0.php:70-75 | empty for 1.3.0; api_key_split and api_key_server for 1.4.0 |
| LegacyServices.DataContents | includes/class-woogosend-services.php:34-64 | get_data has exactly the keys instant and same_day, with the per-service labels and default numbers |
| LegacyServices.UnknownServiceRefused | includes/class-woogosend-services.php:238-242 | an unknown service id gives invalid_service_id before any other check |
| LegacyServices.LegacyWeightCheckedFirst | includes/class-woogosend-services.php:268-287 | outside multi-driver mode an overweight package is refused for weight before dimension |
| LegacyServices.IntendedMatchesCurrent | includes/class-woogosend-services.php:235-322 | with the fallback to the service defaults, the older engine prices exactly like the current one on whole-number envelopes |
| LegacyServices.GuardsAgree | includes/class-woogosend-services.php:245-287 | with the service-default fallback, each guard of the older engine agrees with the current one |
| LegacyServices.DriversAgree | includes/class-woogosend-services.php:257-265 | with the service-default fallback, both engines count the same drivers on whole-number envelopes |
| LegacyServices.TotalsAgree | includes/class-woogosend-services.php:290-311 | with the service-default fallback, both engines compute the same per-driver total |
| LegacyServices.ServiceDefaultIsGetSetting | includes/class-woogosend-services.php:245-254 | the intended fallback reads like the current get_setting with defaults |
| LegacyServices.NoSettingsDivideByZero | includes/class-woogosend-services.php:251-265 | as written, with no stored settings the weight limit reads null, so the driver ratio has no positive divisor |
| LegacyServices.TopLevelReadsNull | includes/class-woogosend-services.php:245-254 | as written, a missing max_distance reads null and the missing cost settings give a 0 total |
| LegacyServices.TopLevelFallbackQuotesFarDelivery | includes/class-woogosend-services.php:245-254 | as written, with only the size limits stored, a 100 km Instant delivery is quoted at 0 |
| LegacyServices.ServiceFallbackRefusesFarDelivery | includes/class-woogosend-services.php:245-254 | with the service-default fallback, the same delivery is refused for distance |
| LegacyServices.GetFields | includes/class-woogosend-services.php:74-218 | the nested loops compute the per-service field table |
| LegacyServices.LegacyFieldsContents | includes/class-woogosend-services.php:201-218 | every field key is suffixed `_<service>`, the title default is "GoSend - <label>", and other defaults are copied only when the service defines them |
| LegacyShipping.SplitDrivers | includes/class-woogosend.php:462-527 | the greedy loop gives no count exactly when one line alone breaks a limit; otherwise between 1 and 1 + the number of lines |
| LegacyShipping.SplitFacts | includes/class-woogosend.php:470-527 | the recursive splitter fails exactly on an oversize line and only ever adds drivers |
| LegacyShipping.OnlyWeightOrHeightSplits | includes/class-woogosend.php:494-514 | once the per-line checks pass, only the running weight or height can overflow |
| LegacyShipping.FittingCartOneDriver | includes/class-woogosend.php:494-527 | a cart whose totals fit the limits needs one driver |
| LegacyShipping.ThreeFifteens | includes/class-woogosend.php:494-527 | weights 15, 15, 15 under a 20 kg limit need 2 drivers, since the overflowing line is not carried over |
| LegacyShipping.ZeroTextWeightLimit | includes/class-woogosend.php:472-475 | a weight limit stored as "0.0" is truthy, so any line with positive weight is too big and no driver count exists |
| LegacyShipping.InstantCost | includes/class-woogosend.php:529-535 | Instant cost is per_km_cost × distance, raised to min_cost when set, times the drivers |
| LegacyShipping.SameDayCost | includes/class-woogosend.php:664-670 | Same Day cost is min_cost, replaced by max_cost when set and the distance is at least 15, times the drivers |
| LegacyShipping.ZeroTextMaxCost | includes/class-woogosend.php:664-668 | a maximum cost stored as "0.00" is truthy, so Same Day costs 0 from 15 km on |
| LegacyShipping.CostPerDriver | includes/class-woogosend.php:529-535 | costs are non-negative and grow with the driver count |
| LegacyShipping.RateLabel | includes/class-woogosend.php:537-548 | the label adds the driver count above one driver and the distance when show_distance is yes |
| LegacyShipping.RateConditions | includes/class-woogosend.php:452-560 | a service adds a rate exactly when enabled, within its distance limit (equality passes) and with no oversize line; the rate charges its driver count |
| LegacyShipping.SelectDistance | includes/class-woogosend.php:787-813 | the nested loops compute the selected route |
| LegacyShipping.ScanRow | includes/class-woogosend.php:790-797 | the inner loop extends the running maximum of rounded-up OK distances over one more row, keeping the text in step |
| LegacyShipping.FarthestIsMax | includes/class-woogosend.php:787-806 | the running maximum bounds every OK element's rounded-up km and is one of them when positive |
| LegacyShipping.RouteIsFarthest | includes/class-woogosend.php:787-813 | a route exists exactly when some OK element is a positive distance away; it is the farthest, printed in km |
| LegacyShipping.GetDestinationInfo | includes/class-woogosend.php:852-900 | the destination text is computed, and missing exactly when no field was sent |
| LegacyShipping.CollectParts | includes/class-woogosend.php:859-899 | the field loop collects the named parts in key order |
| LegacyShipping.PlainDestination | includes/class-woogosend.php:859-899 | without state and country, the parts are the trimmed non-empty fields in the fixed order |
| LegacyShipping.CountryName | includes/class-woogosend.php:880-886 | a known country code is replaced by its name |
| LegacyShipping.OriginInfo | includes/class-woogosend.php:822-844 | the origin is "lat,lng", and empty exactly when either coordinate is empty |
| LegacyShipping.IsAvailable | includes/class-woogosend.php:416-426 | the method is available only when already available, with a cart, a destination and a store in Indonesia |
| LegacyShipping.ShippingMethod.constructor | includes/class-woogosend.php:44-72 | the method stores its options and has no rates yet |
| LegacyShipping.ShippingMethod.ApiRequest | includes/class-woogosend.php:721-814 | no API key, destination or origin, or an empty response, gives no route; otherwise the farthest route |
| LegacyShipping.ShippingMethod.CalculateServiceShipping | includes/class-woogosend.php:452-560 | one service appends its rate when it has one |
| LegacyShipping.ShippingMethod.CalculateShipping | includes/class-woogosend.php:435-442 | the rate list grows by exactly the Instant and then the Same Day rate, when there is a route |
| LegacyShipping.ShippingMethod.NewRatesShape | includes/class-woogosend.php:435-442 | at most two rates, with the service ids; no route, API key, origin or destination means no rates |

## Left out

- HTTP, JSON decoding, object caching, transients and their md5 cache keys are not modelled. The decoded distance-matrix response is an input datatype, and a decoding failure is an absent response.
- WordPress and WooCommerce calls are not modelled as such. `apply_filters` is the identity, the `_pre` filters are absent, `add_rate` appends to the rate list, and `wc_get_weight`/`wc_get_dimension` are the identity. `get_option`/`update_option` become constructor arguments and fields. The `WC()->countries` tables are an input datatype.
- The data version is a global WordPress option. It is kept as a field of the shipping method, and the stored instance settings are written back to it directly.
- `glob` discovery of services and migrations is not modelled. Both lists are parameters, and a discovered migration is identified by its kind.
- `version_compare` is modelled on numeric dotted versions only, which are the only versions the plugin uses.
- Translations (`__`) are the identity.
- `show_debug`, the settings UI (`init_form_fields`, `generate_*_html`, `populate_field`, `process_admin_options`, `validate_*`) and all JavaScript are not modelled. Field metadata is reduced to key names and defaults.
- Table-rate pricing is not modelled: no server-side rule matching exists. Only `get_rate_field_value` is modelled.
- The current shipping method's `get_destination_info` is not modelled: the destination string is an input of `CalculateShipping`. The older method's version is modelled.
- The miles distance unit is not modelled, because the distance unit is always metric.
- Floating point is exact arithmetic: reals for weights, sizes and costs, and integer tenths of a km for API distances. IEEE rounding and the parsing of the km text are not modelled.
- The 'API Response data is empty' branch of the current `api_request` is not modelled. It cannot be reached, because a successful API result is never empty.
- get_rate_id is WooCommerce code and is not part of this model. `ShippingMethods.RateId` follows its form: the method id, then the instance id when it is not 0, then the suffix when it is not empty, joined with ":".
- Services.Cost / LegacyServices.LegacyCost read the limit settings (`max_weight`, `max_width`, `max_length`, `max_height`, `max_distance`) as integers through `intval`. The PHP uses the stored values as they are, so a fractional limit differs: with `max_weight` "2.5", a 5 kg envelope in multiple-driver mode needs 2 drivers in the PHP and 3 in the model, and with `max_distance` "40.5" a 40.3 km route is quoted by the PHP and refused by the model. The settings form asks for whole numbers (`step` 1), but nothing on the server enforces it.
- Values.LeadingInt reads a string only up to its first character that is not a digit. PHP reads a numeric string in exponent form as a whole, so `intval("1e3")` is 1000 there and 1 here. Values beyond PHP's integer range are not saturated either.
- Services.Cost requires positive weight and volume limits (`LimitsPositive`). The PHP divides by them: a zero limit makes it fail, and that failure path is not modelled. A negative limit is accepted by the PHP, which then computes a driver count of zero or less from the negative quotient; the model says nothing about that case either.
- LegacyServices.LegacyCost has the same requirement for known service ids.
- ShippingMethods.ShippingMethod.CalculateShipping requires `RatesPossible`, which means every enabled service has positive limits, for the same reason.
- ShippingMethods.RatesDriversPositive holds only for non-negative envelopes. Negative measurements can give a non-positive driver count in the PHP; the model reproduces that but states nothing about it.
- Sorting.Usort is a stable insertion sort. PHP 8's usort is stable; the exact comparison sequence of PHP's hybrid sort is not modelled.
- The Migration class is modelled inside the shipping-method module, because it holds a reference to the shipping method. Its subclasses are the `MigrationKind` values, with their option sets as functions in `Migrations`.

## Findings

| source | as written | input that shows it | evidently intended | confidence | as-written member | corrected member |
|---|---|---|---|---|---|---|
| includes/classes/class-woogosend-shipping-method.php:1437-1472 | the shortest/longest distance comparators compare `max_distance`, a key API results never carry, so both return 0 and the first result is kept | results with distances 9 km then 3 km and preference shortest_distance: 9 km is picked | compare the `distance` field, picking 3 km | high, not executed | Routes.ShortestDistanceAsWritten | Routes.ShortestDistanceIntended |
| includes/class-woogosend-services.php:245, 251-254 | a missing setting falls back to `$data['default'][$key]`, but get_data has no `default` entry, so it reads null: the distance check and all cost settings vanish | Instant with only the size limits stored, 100 km: quoted at cost 0 | fall back to the service's own defaults, which refuse 100 km | high, not executed | LegacyServices.TopLevelFallbackQuotesFarDelivery | LegacyServices.ServiceFallbackRefusesFarDelivery |

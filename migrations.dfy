/** The settings migrations of the current shipping method: version
    ordering, the option sets of the 1.3.0 and 1.4.0 migrations, and the
    effect of applying them in order to the instance settings. */
module Migrations {
  import opened Values
  import opened OrderedMap
  import opened Sorting

  /** The instance settings: an ordered PHP array. */
  type Settings = seq<(string, SettingValue)>

  /** The migration classes found on disk. */
  datatype MigrationKind = V130 | V140

  /** A version number as its dotted numeric components. */
  type Version = seq<nat>

  /** get_version: "1.3.0" and "1.4.0". */
  function VersionOf(kind: MigrationKind): Version {
    match kind
    case V130 => [1, 3, 0]
    case V140 => [1, 4, 0]
  }

  /** The plugin version, "1.4.0". */
  const PluginVersion: Version := [1, 4, 0]

  /** version_compare(a, b, '<=') on numeric components: component by
      component, a version that runs out first being the smaller. */
  predicate VersionLe(a: Version, b: Version)
    decreases |a|
  {
    a == [] || (b != [] && (a[0] < b[0] || (a[0] == b[0] && VersionLe(a[1..], b[1..]))))
  }

  lemma {:induction false} VersionLeReflexive(a: Version)
    ensures VersionLe(a, a)
    decreases |a|
  {
    if a != [] {
      VersionLeReflexive(a[1..]);
    }
  }

  /** Any two versions compare one way or the other. */
  lemma {:induction false} VersionLeTotal(a: Version, b: Version)
    ensures VersionLe(a, b) || VersionLe(b, a)
    decreases |a|
  {
    if a != [] && b != [] && a[0] == b[0] {
      VersionLeTotal(a[1..], b[1..]);
    }
  }

  lemma {:induction false} VersionLeTransitive(a: Version, b: Version, c: Version)
    requires VersionLe(a, b) && VersionLe(b, c)
    ensures VersionLe(a, c)
    decreases |a|
  {
    if a != [] && a[0] == b[0] && b[0] == c[0] {
      VersionLeTransitive(a[1..], b[1..], c[1..]);
    }
  }

  /** Versions that compare both ways are equal. */
  lemma {:induction false} VersionLeAntisymmetric(a: Version, b: Version)
    requires VersionLe(a, b) && VersionLe(b, a)
    ensures a == b
    decreases |a|
  {
    if a != [] {
      VersionLeAntisymmetric(a[1..], b[1..]);
      assert a == [a[0]] + a[1..] && b == [b[0]] + b[1..];
    }
  }

  /** sort_version: -1 when a's version is not above b's, else 1. */
  function SortVersion(a: MigrationKind, b: MigrationKind): int {
    if VersionLe(VersionOf(a), VersionOf(b)) then -1 else 1
  }

  /** Migrations sort by version: the comparator is never 1 both ways, and
      1.3.0 goes before 1.4.0. */
  lemma SortVersionOrder()
    ensures Connex(SortVersion)
    ensures SortVersion(V130, V140) == -1 && SortVersion(V140, V130) == 1
  {
    forall a: MigrationKind, b: MigrationKind
      ensures SortVersion(a, b) > 0 ==> SortVersion(b, a) <= 0
    {
      VersionLeTotal(VersionOf(a), VersionOf(b));
    }
  }

  /** get_options_pair of the 1.3.0 migration: old option name to new. */
  function OptionsPair(): (pairs: seq<(string, string)>)
    ensures Keys(pairs) == {"api_key", "travel_mode", "route_restrictions"}
    ensures Get(pairs, "api_key") == Some("gmaps_api_key")
    ensures Get(pairs, "travel_mode") == Some("gmaps_api_mode")
    ensures Get(pairs, "route_restrictions") == Some("gmaps_api_avoid")
  {
    [("api_key", "gmaps_api_key"), ("travel_mode", "gmaps_api_mode"), ("route_restrictions", "gmaps_api_avoid")]
  }

  /** isset($settings[key]) ? $settings[key] : default. */
  function GetOr(settings: Settings, key: string, default: SettingValue): SettingValue {
    var v := Get(settings, key);
    if v.Some? then v.value else default
  }

  /** get_update_options, reading the instance settings when an instance is
      set (with none set, every read takes its default). */
  function UpdateOptions(kind: MigrationKind, instance: Option<Settings>): Settings {
    match kind
    case V130 => []
    case V140 =>
      var s := if instance.Some? then instance.value else [];
      var apiKey := GetOr(s, "api_key", Text(""));
      var apiKeySplit := GetOr(s, "api_key_split", Text("no"));
      var apiKeyServer := GetOr(s, "api_key_server", Text(""));
      if apiKeySplit == Text("yes") then [("api_key", apiKeyServer), ("api_key_picker", apiKey)]
      else [("api_key_picker", apiKey)]
  }

  /** get_delete_options. */
  function DeleteOptions(kind: MigrationKind): seq<string> {
    match kind
    case V130 => []
    case V140 => ["api_key_split", "api_key_server"]
  }

  /** The update loop: each option assigned in order. */
  function PutAll(settings: Settings, updates: Settings): Settings
    decreases |updates|
  {
    if updates == [] then settings else PutAll(Put(settings, updates[0].0, updates[0].1), updates[1..])
  }

  /** The delete loop: each option unset in order. */
  function RemoveAll(settings: Settings, keys: seq<string>): Settings
    decreases |keys|
  {
    if keys == [] then settings else RemoveAll(Remove(settings, keys[0]), keys[1..])
  }

  /** The instance settings and the recorded data version. */
  datatype MigrationState = MigrationState(settings: Settings, version: Option<Version>)

  /** One migration: skipped when the recorded version is already at or
      above it, or when it has nothing to update or delete; otherwise
      updates, then deletes, then the version is recorded. */
  function Step(st: MigrationState, kind: MigrationKind): MigrationState {
    if st.version.Some? && VersionLe(VersionOf(kind), st.version.value) then st
    else
      var updates := UpdateOptions(kind, Some(st.settings));
      var deletes := DeleteOptions(kind);
      if updates == [] && deletes == [] then st
      else MigrationState(RemoveAll(PutAll(st.settings, updates), deletes), Some(VersionOf(kind)))
  }

  /** The migrations applied in the given order. */
  function Run(st: MigrationState, kinds: seq<MigrationKind>): MigrationState
    decreases |kinds|
  {
    if kinds == [] then st else Run(Step(st, kinds[0]), kinds[1..])
  }

  /** One migration object per class, in discovery order. */
  function Dedup(kinds: seq<MigrationKind>): seq<MigrationKind>
    decreases |kinds|
  {
    if kinds == [] then []
    else
      var d := Dedup(kinds[..|kinds| - 1]);
      if kinds[|kinds| - 1] in d then d else d + [kinds[|kinds| - 1]]
  }

  /** migrate_data: nothing without an instance id or when the recorded
      version is at or above the plugin's; otherwise the discovered
      migrations in version order. */
  function Migrated(st: MigrationState, instanceId: nat, available: seq<MigrationKind>): MigrationState {
    if instanceId == 0 then st
    else if st.version.Some? && VersionLe(PluginVersion, st.version.value) then st
    else Run(st, SortedBy(Dedup(available), SortVersion))
  }

  // ---------------------------------------------------------------------
  // Properties
  // ---------------------------------------------------------------------

  /** Dedup keeps exactly the discovered classes, once each. */
  lemma {:induction false} DedupMembers(kinds: seq<MigrationKind>)
    ensures forall k :: k in Dedup(kinds) <==> k in kinds
    ensures forall i, j :: 0 <= i < j < |Dedup(kinds)| ==> Dedup(kinds)[i] != Dedup(kinds)[j]
    decreases |kinds|
  {
    if kinds != [] {
      var init := kinds[..|kinds| - 1];
      DedupMembers(init);
      assert kinds == init + [kinds[|kinds| - 1]];
    }
  }

  /** The 1.3.0 migration has nothing to update or delete: it never changes
      the settings and its version is never recorded. */
  lemma V130NeverRecorded(st: MigrationState)
    ensures UpdateOptions(V130, Some(st.settings)) == [] && DeleteOptions(V130) == []
    ensures Step(st, V130) == st
  {
  }

  /** The 1.4.0 updates: with api_key_split "yes", api_key takes the old
      api_key_server and api_key_picker the old api_key; otherwise only
      api_key_picker is set, to the old api_key. Missing values read as "",
      "no" and "". */
  lemma V140Updates(s: Settings)
    ensures var split := GetOr(s, "api_key_split", Text("no"));
      split == Text("yes") ==>
        UpdateOptions(V140, Some(s)) == [("api_key", GetOr(s, "api_key_server", Text(""))), ("api_key_picker", GetOr(s, "api_key", Text("")))]
    ensures var split := GetOr(s, "api_key_split", Text("no"));
      split != Text("yes") ==>
        UpdateOptions(V140, Some(s)) == [("api_key_picker", GetOr(s, "api_key", Text("")))]
    ensures "api_key_split" !in Keys(s) ==> UpdateOptions(V140, Some(s)) == [("api_key_picker", GetOr(s, "api_key", Text("")))]
    ensures UpdateOptions(V140, None) == [("api_key_picker", Text(""))]
  {
    assert Keys<string, SettingValue>([]) == {};
  }

  lemma {:induction false} RemoveAllKeys(s: Settings, keys: seq<string>)
    ensures Keys(RemoveAll(s, keys)) == Keys(s) - set k | k in keys
    decreases |keys|
  {
    if keys != [] {
      RemoveAllKeys(Remove(s, keys[0]), keys[1..]);
    }
  }

  lemma {:induction false} PutAllKeys(s: Settings, updates: Settings)
    ensures Keys(PutAll(s, updates)) == Keys(s) + Keys(updates)
    decreases |updates|
  {
    if updates != [] {
      PutAllKeys(Put(s, updates[0].0, updates[0].1), updates[1..]);
    }
  }

  /** The settings migrated to 1.4.0: the updated keys are present, the
      split and server keys are gone, and 1.4.0 is recorded. */
  predicate AtV140(st: MigrationState) {
    && st.version == Some(VersionOf(V140))
    && "api_key_split" !in Keys(st.settings)
    && "api_key_server" !in Keys(st.settings)
  }

  /** Applying 1.4.0 to settings recorded below it: updates applied before
      deletes, so the deleted keys are gone whatever the updates set. */
  lemma V140Step(st: MigrationState)
    requires st.version.None? || !VersionLe(VersionOf(V140), st.version.value)
    ensures AtV140(Step(st, V140))
    ensures Keys(Step(st, V140).settings)
      == (Keys(st.settings) + Keys(UpdateOptions(V140, Some(st.settings)))) - {"api_key_split", "api_key_server"}
    ensures "api_key_picker" in Keys(Step(st, V140).settings)
  {
    var updates := UpdateOptions(V140, Some(st.settings));
    PutAllKeys(st.settings, updates);
    RemoveAllKeys(PutAll(st.settings, updates), DeleteOptions(V140));
    assert (set k | k in DeleteOptions(V140)) == {"api_key_split", "api_key_server"};
    assert "api_key_picker" in Keys(updates) by {
      assert updates[|updates| - 1].0 == "api_key_picker";
      KeysIndex(updates, "api_key_picker");
    }
  }

  /** Once at 1.4.0, no known migration changes anything. */
  lemma {:induction false} AtV140Stays(st: MigrationState, kinds: seq<MigrationKind>)
    requires AtV140(st)
    ensures Run(st, kinds) == st
    decreases |kinds|
  {
    if kinds != [] {
      VersionLeReflexive(VersionOf(V140));
      assert Step(st, kinds[0]) == st;
      AtV140Stays(st, kinds[1..]);
    }
  }

  /** Whatever the order, running a list that holds 1.4.0 from a version below
      1.4.0 ends at 1.4.0 with the split and server keys gone. */
  lemma {:induction false} RunReachesV140(st: MigrationState, kinds: seq<MigrationKind>)
    requires st.version.None? || !VersionLe(VersionOf(V140), st.version.value)
    requires V140 in kinds
    ensures AtV140(Run(st, kinds))
    decreases |kinds|
  {
    if kinds[0] == V130 {
      RunReachesV140(Step(st, V130), kinds[1..]);
    } else {
      V140Step(st);
      AtV140Stays(Step(st, V140), kinds[1..]);
    }
  }

  /** migrate_data without an instance id, or with the data already at the
      plugin version, changes nothing. */
  lemma MigrationSkipped(st: MigrationState, instanceId: nat, available: seq<MigrationKind>)
    requires instanceId == 0 || (st.version.Some? && VersionLe(PluginVersion, st.version.value))
    ensures Migrated(st, instanceId, available) == st
  {
  }

  /** migrate_data on an instance whose data predates 1.4.0, with the 1.4.0
      migration available: afterwards neither api_key_split nor
      api_key_server remains and 1.4.0 is recorded. */
  lemma MigrationReachesV140(st: MigrationState, instanceId: nat, available: seq<MigrationKind>)
    requires instanceId != 0 && V140 in available
    requires st.version.None? || !VersionLe(VersionOf(V140), st.version.value)
    ensures AtV140(Migrated(st, instanceId, available))
  {
    var pending := SortedBy(Dedup(available), SortVersion);
    DedupMembers(available);
    SortedByPermutes(Dedup(available), SortVersion);
    assert V140 in multiset(pending);
    RunReachesV140(st, pending);
  }

  /** The migrations run in ascending version order. */
  lemma PendingSorted(available: seq<MigrationKind>)
    ensures var pending := SortedBy(Dedup(available), SortVersion);
      forall i :: 0 <= i < |pending| - 1 ==> VersionLe(VersionOf(pending[i]), VersionOf(pending[i + 1]))
  {
    SortVersionOrder();
    SortedBySorts(Dedup(available), SortVersion);
  }
}

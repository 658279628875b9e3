/** The plugin's free helper functions: inserting an entry before or after a
    given key of an ordered array, and the dotted-path lookup of translated
    interface strings. */
module Helpers {
  import opened Values
  import opened Strings
  import opened OrderedMap

  // ---------------------------------------------------------------------
  // woogosend_array_insert_before / woogosend_array_insert_after
  // ---------------------------------------------------------------------

  /** One iteration of the insert-before loop: the new entry is written just
      before the anchor entry is copied. */
  function BeforeStep<K(==), V>(anchor: K, nk: K, nv: V, acc: seq<(K, V)>, e: (K, V)): seq<(K, V)> {
    if e.0 == anchor then Put(Put(acc, nk, nv), e.0, e.1) else Put(acc, e.0, e.1)
  }

  /** One iteration of the insert-after loop: the new entry is written just
      after the anchor entry is copied. */
  function AfterStep<K(==), V>(anchor: K, nk: K, nv: V, acc: seq<(K, V)>, e: (K, V)): seq<(K, V)> {
    if e.0 == anchor then Put(Put(acc, e.0, e.1), nk, nv) else Put(acc, e.0, e.1)
  }

  /** The loop run over the entries `rest`, starting from the partial result `acc`. */
  function BeforeFrom<K(==), V>(anchor: K, nk: K, nv: V, acc: seq<(K, V)>, rest: seq<(K, V)>): seq<(K, V)>
    decreases |rest|
  {
    if rest == [] then acc else BeforeFrom(anchor, nk, nv, BeforeStep(anchor, nk, nv, acc, rest[0]), rest[1..])
  }

  function AfterFrom<K(==), V>(anchor: K, nk: K, nv: V, acc: seq<(K, V)>, rest: seq<(K, V)>): seq<(K, V)>
    decreases |rest|
  {
    if rest == [] then acc else AfterFrom(anchor, nk, nv, AfterStep(anchor, nk, nv, acc, rest[0]), rest[1..])
  }

  /** Result of woogosend_array_insert_before. */
  function InsertedBefore<K(==), V>(anchor: K, a: seq<(K, V)>, nk: K, nv: V): seq<(K, V)> {
    if anchor !in Keys(a) then a else BeforeFrom(anchor, nk, nv, [], a)
  }

  /** Result of woogosend_array_insert_after. */
  function InsertedAfter<K(==), V>(anchor: K, a: seq<(K, V)>, nk: K, nv: V): seq<(K, V)> {
    if anchor !in Keys(a) then a else AfterFrom(anchor, nk, nv, [], a)
  }

  /** woogosend_array_insert_before: copies the array entry by entry,
      writing the new entry when the anchor key comes up. */
  method InsertBefore<K(==), V>(anchor: K, a: seq<(K, V)>, nk: K, nv: V) returns (r: seq<(K, V)>)
    ensures r == InsertedBefore(anchor, a, nk, nv)
    ensures anchor !in Keys(a) ==> r == a
    ensures anchor in Keys(a) ==> Keys(r) == Keys(a) + {nk}
  {
    if anchor !in Keys(a) {
      return a;
    }
    r := [];
    for i := 0 to |a|
      invariant BeforeFrom(anchor, nk, nv, r, a[i..]) == BeforeFrom(anchor, nk, nv, [], a)
    {
      assert a[i..][0] == a[i] && a[i..][1..] == a[i + 1..];
      if a[i].0 == anchor {
        r := Put(r, nk, nv);
      }
      r := Put(r, a[i].0, a[i].1);
    }
    assert a[|a|..] == [];
    BeforeKeys(anchor, nk, nv, [], a);
  }

  /** woogosend_array_insert_after, the mirror of InsertBefore. */
  method InsertAfter<K(==), V>(anchor: K, a: seq<(K, V)>, nk: K, nv: V) returns (r: seq<(K, V)>)
    ensures r == InsertedAfter(anchor, a, nk, nv)
    ensures anchor !in Keys(a) ==> r == a
    ensures anchor in Keys(a) ==> Keys(r) == Keys(a) + {nk}
  {
    if anchor !in Keys(a) {
      return a;
    }
    r := [];
    for i := 0 to |a|
      invariant AfterFrom(anchor, nk, nv, r, a[i..]) == AfterFrom(anchor, nk, nv, [], a)
    {
      assert a[i..][0] == a[i] && a[i..][1..] == a[i + 1..];
      r := Put(r, a[i].0, a[i].1);
      if a[i].0 == anchor {
        r := Put(r, nk, nv);
      }
    }
    assert a[|a|..] == [];
    AfterKeys(anchor, nk, nv, [], a);
  }

  /** The keys of the copy are the keys seen so far plus the new key once the
      anchor has been passed. */
  lemma {:induction false} BeforeKeys<K, V>(anchor: K, nk: K, nv: V, acc: seq<(K, V)>, rest: seq<(K, V)>)
    ensures Keys(BeforeFrom(anchor, nk, nv, acc, rest))
         == Keys(acc) + Keys(rest) + (if anchor in Keys(rest) then {nk} else {})
    decreases |rest|
  {
    if rest != [] {
      BeforeKeys(anchor, nk, nv, BeforeStep(anchor, nk, nv, acc, rest[0]), rest[1..]);
    }
  }

  lemma {:induction false} AfterKeys<K, V>(anchor: K, nk: K, nv: V, acc: seq<(K, V)>, rest: seq<(K, V)>)
    ensures Keys(AfterFrom(anchor, nk, nv, acc, rest))
         == Keys(acc) + Keys(rest) + (if anchor in Keys(rest) then {nk} else {})
    decreases |rest|
  {
    if rest != [] {
      AfterKeys(anchor, nk, nv, AfterStep(anchor, nk, nv, acc, rest[0]), rest[1..]);
    }
  }

  /** Reference definition: the entries of `a` with the new entry placed in
      front of every anchor entry. */
  function SplicedBefore<K(==), V>(anchor: K, nk: K, nv: V, a: seq<(K, V)>): seq<(K, V)> {
    if a == [] then []
    else if a[0].0 == anchor then [(nk, nv), a[0]] + SplicedBefore(anchor, nk, nv, a[1..])
    else [a[0]] + SplicedBefore(anchor, nk, nv, a[1..])
  }

  function SplicedAfter<K(==), V>(anchor: K, nk: K, nv: V, a: seq<(K, V)>): seq<(K, V)> {
    if a == [] then []
    else if a[0].0 == anchor then [a[0], (nk, nv)] + SplicedAfter(anchor, nk, nv, a[1..])
    else [a[0]] + SplicedAfter(anchor, nk, nv, a[1..])
  }

  lemma {:induction false} SplicedBeforeKeys<K, V>(anchor: K, nk: K, nv: V, a: seq<(K, V)>)
    ensures Keys(SplicedBefore(anchor, nk, nv, a)) == Keys(a) + (if anchor in Keys(a) then {nk} else {})
    ensures nk !in Keys(a) && DistinctKeys(a) ==> DistinctKeys(SplicedBefore(anchor, nk, nv, a))
  {
    if a != [] {
      SplicedBeforeKeys(anchor, nk, nv, a[1..]);
      var t := SplicedBefore(anchor, nk, nv, a[1..]);
      if a[0].0 == anchor {
        assert ([(nk, nv), a[0]] + t)[1..] == [a[0]] + t;
        assert ([a[0]] + t)[1..] == t;
      } else {
        assert ([a[0]] + t)[1..] == t;
      }
    }
  }

  lemma {:induction false} SplicedAfterKeys<K, V>(anchor: K, nk: K, nv: V, a: seq<(K, V)>)
    ensures Keys(SplicedAfter(anchor, nk, nv, a)) == Keys(a) + (if anchor in Keys(a) then {nk} else {})
    ensures nk !in Keys(a) && DistinctKeys(a) ==> DistinctKeys(SplicedAfter(anchor, nk, nv, a))
  {
    if a != [] {
      SplicedAfterKeys(anchor, nk, nv, a[1..]);
      var t := SplicedAfter(anchor, nk, nv, a[1..]);
      if a[0].0 == anchor {
        assert ([a[0], (nk, nv)] + t)[1..] == [(nk, nv)] + t;
        assert ([(nk, nv)] + t)[1..] == t;
      } else {
        assert ([a[0]] + t)[1..] == t;
      }
    }
  }

  /** Appending an entry whose key is new keeps the keys distinct. */
  lemma AppendFresh<K, V>(acc: seq<(K, V)>, e: (K, V))
    requires DistinctKeys(acc) && e.0 !in Keys(acc)
    ensures DistinctKeys(acc + [e]) && Keys(acc + [e]) == Keys(acc) + {e.0}
  {
    KeysAppend(acc, [e]);
    DistinctAppend(acc, [e]);
  }

  /** A loop step over an entry with a fresh key appends. */
  lemma BeforeStepAppends<K, V>(anchor: K, nk: K, nv: V, acc: seq<(K, V)>, e: (K, V))
    requires DistinctKeys(acc) && e.0 !in Keys(acc) && e.0 != nk
    requires e.0 == anchor ==> nk !in Keys(acc)
    ensures var acc' := acc + if e.0 == anchor then [(nk, nv), e] else [e];
      BeforeStep(anchor, nk, nv, acc, e) == acc' && DistinctKeys(acc')
      && Keys(acc') == Keys(acc) + {e.0} + (if e.0 == anchor then {nk} else {})
  {
    if e.0 == anchor {
      AppendFresh(acc, (nk, nv));
      AppendFresh(acc + [(nk, nv)], e);
      assert acc + [(nk, nv)] + [e] == acc + [(nk, nv), e];
    } else {
      AppendFresh(acc, e);
    }
  }

  lemma AfterStepAppends<K, V>(anchor: K, nk: K, nv: V, acc: seq<(K, V)>, e: (K, V))
    requires DistinctKeys(acc) && e.0 !in Keys(acc) && e.0 != nk
    requires e.0 == anchor ==> nk !in Keys(acc)
    ensures var acc' := acc + if e.0 == anchor then [e, (nk, nv)] else [e];
      AfterStep(anchor, nk, nv, acc, e) == acc' && DistinctKeys(acc')
      && Keys(acc') == Keys(acc) + {e.0} + (if e.0 == anchor then {nk} else {})
  {
    AppendFresh(acc, e);
    if e.0 == anchor {
      AppendFresh(acc + [e], (nk, nv));
      assert acc + [e] + [(nk, nv)] == acc + [e, (nk, nv)];
    }
  }

  lemma ConcatAssoc<T>(a: seq<T>, b: seq<T>, c: seq<T>)
    ensures a + b + c == a + (b + c)
  {
  }

  /** One loop step keeps the preconditions of BeforeFromSplices. */
  lemma BeforeSplicesStep<K, V>(anchor: K, nk: K, nv: V, acc: seq<(K, V)>, rest: seq<(K, V)>)
    requires rest != []
    requires DistinctKeys(acc) && DistinctKeys(rest) && Keys(acc) !! Keys(rest)
    requires nk !in Keys(rest)
    requires anchor in Keys(rest) ==> nk !in Keys(acc)
    ensures var e, t := rest[0], rest[1..];
      var acc' := acc + if e.0 == anchor then [(nk, nv), e] else [e];
      BeforeStep(anchor, nk, nv, acc, e) == acc'
      && DistinctKeys(acc') && DistinctKeys(t) && Keys(acc') !! Keys(t) && nk !in Keys(t)
      && (anchor in Keys(t) ==> nk !in Keys(acc'))
  {
    var e, t := rest[0], rest[1..];
    assert Keys(rest) == {e.0} + Keys(t);
    BeforeStepAppends(anchor, nk, nv, acc, e);
  }

  /** Over an array with distinct keys that lacks the new key, the copy loop
      only ever appends, so it produces the spliced entries. */
  lemma {:induction false} BeforeFromSplices<K, V>(anchor: K, nk: K, nv: V, acc: seq<(K, V)>, rest: seq<(K, V)>)
    requires DistinctKeys(acc) && DistinctKeys(rest) && Keys(acc) !! Keys(rest)
    requires nk !in Keys(rest)
    requires anchor in Keys(rest) ==> nk !in Keys(acc)
    ensures BeforeFrom(anchor, nk, nv, acc, rest) == acc + SplicedBefore(anchor, nk, nv, rest)
    decreases |rest|
  {
    if rest == [] {
      assert acc + [] == acc;
    } else {
      var e, t := rest[0], rest[1..];
      var piece := if e.0 == anchor then [(nk, nv), e] else [e];
      BeforeSplicesStep(anchor, nk, nv, acc, rest);
      BeforeFromSplices(anchor, nk, nv, acc + piece, t);
      ConcatAssoc(acc, piece, SplicedBefore(anchor, nk, nv, t));
    }
  }

  /** One loop step keeps the preconditions of AfterFromSplices. */
  lemma AfterSplicesStep<K, V>(anchor: K, nk: K, nv: V, acc: seq<(K, V)>, rest: seq<(K, V)>)
    requires rest != []
    requires DistinctKeys(acc) && DistinctKeys(rest) && Keys(acc) !! Keys(rest)
    requires nk !in Keys(rest)
    requires anchor in Keys(rest) ==> nk !in Keys(acc)
    ensures var e, t := rest[0], rest[1..];
      var acc' := acc + if e.0 == anchor then [e, (nk, nv)] else [e];
      AfterStep(anchor, nk, nv, acc, e) == acc'
      && DistinctKeys(acc') && DistinctKeys(t) && Keys(acc') !! Keys(t) && nk !in Keys(t)
      && (anchor in Keys(t) ==> nk !in Keys(acc'))
  {
    var e, t := rest[0], rest[1..];
    assert Keys(rest) == {e.0} + Keys(t);
    AfterStepAppends(anchor, nk, nv, acc, e);
  }

  lemma {:induction false} AfterFromSplices<K, V>(anchor: K, nk: K, nv: V, acc: seq<(K, V)>, rest: seq<(K, V)>)
    requires DistinctKeys(acc) && DistinctKeys(rest) && Keys(acc) !! Keys(rest)
    requires nk !in Keys(rest)
    requires anchor in Keys(rest) ==> nk !in Keys(acc)
    ensures AfterFrom(anchor, nk, nv, acc, rest) == acc + SplicedAfter(anchor, nk, nv, rest)
    decreases |rest|
  {
    if rest == [] {
      assert acc + [] == acc;
    } else {
      var e, t := rest[0], rest[1..];
      var piece := if e.0 == anchor then [e, (nk, nv)] else [e];
      AfterSplicesStep(anchor, nk, nv, acc, rest);
      assert AfterFrom(anchor, nk, nv, acc, rest) == AfterFrom(anchor, nk, nv, acc + piece, t);
      assert SplicedAfter(anchor, nk, nv, rest) == piece + SplicedAfter(anchor, nk, nv, t);
      AfterFromSplices(anchor, nk, nv, acc + piece, t);
      ConcatAssoc(acc, piece, SplicedAfter(anchor, nk, nv, t));
    }
  }

  /** With distinct keys the anchor occurs once, so splicing puts the new
      entry at exactly one position. */
  lemma {:induction false} SplicedBeforeAt<K, V>(anchor: K, nk: K, nv: V, a: seq<(K, V)>)
    requires DistinctKeys(a) && anchor in Keys(a)
    ensures var j := KeyIndex(a, anchor);
      SplicedBefore(anchor, nk, nv, a) == a[..j] + [(nk, nv)] + a[j..]
  {
    if a[0].0 == anchor {
      SplicedUntouched(anchor, nk, nv, a[1..]);
      assert a[..0] == [] && a[0..] == [a[0]] + a[1..];
    } else {
      var t := a[1..];
      assert Keys(a) == {a[0].0} + Keys(t);
      SplicedBeforeAt(anchor, nk, nv, t);
      ConsSplit(a, KeyIndex(a, anchor), (nk, nv));
    }
  }

  lemma {:induction false} SplicedAfterAt<K, V>(anchor: K, nk: K, nv: V, a: seq<(K, V)>)
    requires DistinctKeys(a) && anchor in Keys(a)
    ensures var j := KeyIndex(a, anchor);
      SplicedAfter(anchor, nk, nv, a) == a[..j + 1] + [(nk, nv)] + a[j + 1..]
  {
    if a[0].0 == anchor {
      SplicedAfterHead(anchor, nk, nv, a);
    } else {
      var t := a[1..];
      assert Keys(a) == {a[0].0} + Keys(t);
      SplicedAfterAt(anchor, nk, nv, t);
      ConsSplit(a, KeyIndex(a, anchor) + 1, (nk, nv));
    }
  }

  /** An anchor at the head, with distinct keys, gets the new entry right
      behind it. */
  lemma SplicedAfterHead<K, V>(anchor: K, nk: K, nv: V, a: seq<(K, V)>)
    requires DistinctKeys(a) && a != [] && a[0].0 == anchor
    ensures SplicedAfter(anchor, nk, nv, a) == a[..1] + [(nk, nv)] + a[1..]
  {
    SplicedUntouched(anchor, nk, nv, a[1..]);
    assert a[..1] == [a[0]];
  }

  /** Cutting a non-empty sequence at j, with e inserted, is cutting its tail
      at j - 1 behind the head. */
  lemma ConsSplit<T>(a: seq<T>, j: nat, e: T)
    requires 1 <= j <= |a|
    ensures [a[0]] + (a[1..][..j - 1] + [e] + a[1..][j - 1..]) == a[..j] + [e] + a[j..]
  {
    assert a[..j] == [a[0]] + a[1..][..j - 1];
    assert a[j..] == a[1..][j - 1..];
  }

  /** Without an anchor entry, splicing changes nothing. */
  lemma {:induction false} SplicedUntouched<K, V>(anchor: K, nk: K, nv: V, a: seq<(K, V)>)
    requires anchor !in Keys(a)
    ensures SplicedBefore(anchor, nk, nv, a) == a
    ensures SplicedAfter(anchor, nk, nv, a) == a
  {
    if a != [] {
      SplicedUntouched(anchor, nk, nv, a[1..]);
    }
  }

  /** For an array that lacks the new key, insert-before places the new entry
      immediately before the anchor and keeps every other entry in order. */
  lemma InsertBeforePosition<K, V>(anchor: K, a: seq<(K, V)>, nk: K, nv: V)
    requires DistinctKeys(a) && anchor in Keys(a) && nk !in Keys(a)
    ensures var j := KeyIndex(a, anchor);
      InsertedBefore(anchor, a, nk, nv) == a[..j] + [(nk, nv)] + a[j..]
  {
    BeforeFromSplices(anchor, nk, nv, [], a);
    SplicedBeforeAt(anchor, nk, nv, a);
    assert [] + SplicedBefore(anchor, nk, nv, a) == SplicedBefore(anchor, nk, nv, a);
  }

  /** For an array that lacks the new key, insert-after places the new entry
      immediately after the anchor and keeps every other entry in order. */
  lemma InsertAfterPosition<K, V>(anchor: K, a: seq<(K, V)>, nk: K, nv: V)
    requires DistinctKeys(a) && anchor in Keys(a) && nk !in Keys(a)
    ensures var j := KeyIndex(a, anchor);
      InsertedAfter(anchor, a, nk, nv) == a[..j + 1] + [(nk, nv)] + a[j + 1..]
  {
    AfterFromSplices(anchor, nk, nv, [], a);
    SplicedAfterAt(anchor, nk, nv, a);
    assert [] + SplicedAfter(anchor, nk, nv, a) == SplicedAfter(anchor, nk, nv, a);
  }

  /** Both inserts keep the keys distinct when the new key is new. */
  lemma InsertKeepsDistinct<K, V>(anchor: K, a: seq<(K, V)>, nk: K, nv: V)
    requires DistinctKeys(a) && nk !in Keys(a)
    ensures DistinctKeys(InsertedBefore(anchor, a, nk, nv))
    ensures DistinctKeys(InsertedAfter(anchor, a, nk, nv))
  {
    BeforeFromSplices(anchor, nk, nv, [], a);
    AfterFromSplices(anchor, nk, nv, [], a);
    SplicedBeforeKeys(anchor, nk, nv, a);
    SplicedAfterKeys(anchor, nk, nv, a);
    assert [] + SplicedBefore(anchor, nk, nv, a) == SplicedBefore(anchor, nk, nv, a);
    assert [] + SplicedAfter(anchor, nk, nv, a) == SplicedAfter(anchor, nk, nv, a);
  }

  // ---------------------------------------------------------------------
  // woogosend_i18n
  // ---------------------------------------------------------------------

  /** A value of the translation table: a string or a nested table. */
  datatype Node = Leaf(text: string) | Table(entries: seq<(string, Node)>)

  /** The translation table, with translation itself taken as the identity. */
  function I18nTable(): Node {
    Table([
      ("drag_marker", Leaf("Drag this marker or search your address at the input above.")),
      ("per_unit", Leaf("Per %s")),
      ("map_is_error", Leaf("Map is error")),
      ("latitude", Leaf("Latitude")),
      ("longitude", Leaf("Longitude")),
      ("buttons", ButtonLabels()),
      ("errors", ErrorMessages()),
      ("Save Changes", Leaf("Save Changes")),
      ("Add New Rate", Leaf("Add New Rate"))
    ])
  }

  function ButtonLabels(): Node {
    Table([
        ("Get API Key", Leaf("Get API Key")),
        ("Back", Leaf("Back")),
        ("Cancel", Leaf("Cancel")),
        ("Apply Changes", Leaf("Apply Changes")),
        ("Confirm Delete", Leaf("Confirm Delete")),
        ("Delete Selected Rates", Leaf("Delete Selected Rates")),
        ("Add New Rate", Leaf("Add New Rate")),
        ("Save Changes", Leaf("Save Changes"))
    ])
  }

  function ErrorMessages(): Node {
    Table([
        ("field_required", Leaf("%s field is required")),
        ("field_min_value", Leaf("%1$s field value cannot be lower than %2$d")),
        ("field_max_value", Leaf("%1$s field value cannot be greater than %2$d")),
        ("field_numeric", Leaf("%s field value must be numeric")),
        ("field_numeric_decimal", Leaf("%s field value must be numeric and decimal")),
        ("field_select", Leaf("%s field value selected is not exists")),
        ("table_rate_row", Leaf("Table rate row #%1$d: %2$s")),
        ("duplicate_rate_row", Leaf("Shipping rules combination duplicate with rate row #%1$d: %2$s")),
        ("finish_editing_api", Leaf("Please finish the API Key Editing first!")),
        ("table_rates_invalid", Leaf("Table rates data is incomplete or invalid!"))
    ])
  }

  /** PHP refuses to take a reference into a string offset; the lookup then
      stops with a fatal error. */
  const StringOffsetError := "Cannot create references to/from string offsets"

  /** The reference walk `$temp = &$temp[$path]` over the remaining path
      segments. None is PHP null: a missing key reads as null, and a reference
      into null turns it into an empty array, so null stays null. */
  function Walk(t: Option<Node>, paths: seq<string>): Result<Option<Node>>
    decreases |paths|
  {
    if paths == [] then Ok(t)
    else match t
      case None => Walk(None, paths[1..])
      case Some(Leaf(_)) => Err(StringOffsetError)
      case Some(Table(es)) => Walk(Get(es, paths[0]), paths[1..])
  }

  /** Lookup of a key in a translation table: the whole table for an empty
      key, otherwise the value at the dotted path, or the default when the
      path leads to null. */
  function LookupIn(root: Node, key: string, default: string): Result<Node> {
    if EmptyString(key) then Ok(root)
    else match Walk(Some(root), Split(key, '.'))
      case Err(m) => Err(m)
      case Ok(None) => Ok(Leaf(default))
      case Ok(Some(n)) => Ok(n)
  }

  /** Result of woogosend_i18n(key, default). */
  function I18nLookup(key: string, default: string): Result<Node> {
    LookupIn(I18nTable(), key, default)
  }

  /** woogosend_i18n: the lookup in the translation table. */
  method I18n(key: string, default: string) returns (r: Result<Node>)
    ensures r == I18nLookup(key, default)
    ensures EmptyString(key) ==> r == Ok(I18nTable())
  {
    r := LookupTable(I18nTable(), key, default);
  }

  /** The lookup of woogosend_i18n, walking the path segments one at a time. */
  method LookupTable(root: Node, key: string, default: string) returns (r: Result<Node>)
    ensures r == LookupIn(root, key, default)
    ensures EmptyString(key) ==> r == Ok(root)
  {
    if EmptyString(key) {
      return Ok(root);
    }
    var paths := Split(key, '.');
    var temp: Option<Node> := Some(root);
    var i := 0;
    while i < |paths|
      invariant 0 <= i <= |paths|
      invariant Walk(temp, paths[i..]) == Walk(Some(root), paths)
    {
      assert paths[i..][0] == paths[i] && paths[i..][1..] == paths[i + 1..];
      match temp {
        case None =>
        case Some(Leaf(_)) =>
          return Err(StringOffsetError);
        case Some(Table(es)) =>
          temp := Get(es, paths[i]);
      }
      i := i + 1;
    }
    assert paths[|paths|..] == [];
    r := if temp.None? then Ok(Leaf(default)) else Ok(temp.value);
  }

  /** Once the walk reaches null it stays null, whatever follows. */
  lemma {:induction false} WalkNull(paths: seq<string>)
    ensures Walk(None, paths) == Ok(None)
    decreases |paths|
  {
    if paths != [] {
      WalkNull(paths[1..]);
    }
  }

  /** Walking a path in two parts is walking it at once. */
  lemma {:induction false} WalkConcat(t: Option<Node>, p: seq<string>, q: seq<string>)
    ensures Walk(t, p + q) == match Walk(t, p)
      case Err(m) => Err(m)
      case Ok(u) => Walk(u, q)
    decreases |p|
  {
    if p == [] {
      assert p + q == q;
    } else {
      assert (p + q)[0] == p[0] && (p + q)[1..] == p[1..] + q;
      match t
      case None => WalkConcat(None, p[1..], q);
      case Some(Leaf(_)) =>
      case Some(Table(es)) => WalkConcat(Get(es, p[0]), p[1..], q);
    }
  }

  /** A key without a dot is read directly from the table, and an absent
      one yields the default. */
  lemma LookupTopLevel(es: seq<(string, Node)>, key: string, default: string)
    requires !EmptyString(key) && '.' !in key
    ensures LookupIn(Table(es), key, default)
         == match Get(es, key)
              case None => Ok(Leaf(default))
              case Some(n) => Ok(n)
  {
    assert Split(key, '.') == [key];
    WalkOne(Table(es), key);
  }

  lemma WalkOne(root: Node, p: string)
    ensures Walk(Some(root), [p])
         == if root.Leaf? then Err(StringOffsetError) else Ok(Get(root.entries, p))
  {
    assert [p][0] == p && [p][1..] == [];
  }

  /** A key "a.b" reads b inside the table found at a; a missing step yields
      the default, and a string at a stops the lookup with an error. */
  function NestedStep(t: Option<Node>, b: string, default: string): Result<Node> {
    match t
    case None => Ok(Leaf(default))
    case Some(Leaf(_)) => Err(StringOffsetError)
    case Some(Table(inner)) =>
      match Get(inner, b)
      case None => Ok(Leaf(default))
      case Some(n) => Ok(n)
  }

  lemma LookupNested(es: seq<(string, Node)>, a: string, b: string, default: string)
    requires '.' !in a && '.' !in b
    ensures LookupIn(Table(es), a + "." + b, default)
         == NestedStep(Get(es, a), b, default)
  {
    SplitOnce(a, b);
    var key := a + "." + b;
    assert key[|a|] == '.';
    assert [a, b] == [a] + [b];
    WalkConcat(Some(Table(es)), [a], [b]);
    WalkOne(Table(es), a);
    match Get(es, a)
    case None => WalkNull([b]);
    case Some(n) => WalkOne(n, b);
  }

  /** The entries the example lookups pass through. */
  lemma TableEntries()
    ensures Get(I18nTable().entries, "errors") == Some(ErrorMessages())
    ensures Get(I18nTable().entries, "buttons") == Some(ButtonLabels())
    ensures Get(I18nTable().entries, "latitude") == Some(Leaf("Latitude"))
    ensures Get(ErrorMessages().entries, "field_required") == Some(Leaf("%s field is required"))
    ensures Get(ButtonLabels().entries, "Nope") == None
  {
    ErrorsEntry();
    ButtonsEntry();
    LatitudeEntry();
    FieldRequiredEntry();
    NopeMissing();
  }

  lemma NoDots()
    ensures '.' !in "errors" && '.' !in "field_required" && '.' !in "buttons"
    ensures '.' !in "Nope" && '.' !in "latitude" && '.' !in "x"
  {
  }

  lemma ErrorsEntry()
    ensures Get(I18nTable().entries, "errors") == Some(ErrorMessages())
  {
    TopEntry("errors", 6);
  }

  lemma ButtonsEntry()
    ensures Get(I18nTable().entries, "buttons") == Some(ButtonLabels())
  {
    TopEntry("buttons", 5);
  }

  lemma LatitudeEntry()
    ensures Get(I18nTable().entries, "latitude") == Some(Leaf("Latitude"))
  {
    TopEntry("latitude", 3);
  }

  lemma FieldRequiredEntry()
    ensures Get(ErrorMessages().entries, "field_required") == Some(Leaf("%s field is required"))
  {
    GetAt(ErrorMessages().entries, "field_required", 0);
  }

  lemma NopeMissing()
    ensures Get(ButtonLabels().entries, "Nope") == None
  {
    GetAbsent(ButtonLabels().entries, "Nope");
  }

  lemma TopEntry(k: string, i: nat)
    requires i < |I18nTable().entries| && I18nTable().entries[i].0 == k
    requires forall j :: 0 <= j < i ==> I18nTable().entries[j].0 != k
    ensures Get(I18nTable().entries, k) == Some(I18nTable().entries[i].1)
  {
    GetAt(I18nTable().entries, k, i);
  }

  lemma LookupNestedMessage()
    ensures I18nLookup("errors" + "." + "field_required", "x") == Ok(Leaf("%s field is required"))
  {
    TableEntries();
    NoDots();
    LookupNested(I18nTable().entries, "errors", "field_required", "x");
  }

  lemma LookupMissingNested()
    ensures I18nLookup("buttons" + "." + "Nope", "fallback") == Ok(Leaf("fallback"))
  {
    TableEntries();
    NoDots();
    LookupNested(I18nTable().entries, "buttons", "Nope", "fallback");
  }

  lemma LookupThroughString()
    ensures I18nLookup("latitude" + "." + "x", "") == Err(StringOffsetError)
  {
    TableEntries();
    NoDots();
    LookupNested(I18nTable().entries, "latitude", "x", "");
  }

  lemma SplitOnce(a: string, b: string)
    requires '.' !in a && '.' !in b
    ensures Split(a + "." + b, '.') == [a, b]
  {
    var s := a + "." + b;
    assert s == a + ['.'] + b;
    FirstIndexAfter(a, b, '.');
    assert s[..|a|] == a && s[|a| + 1..] == b;
    assert Split(b, '.') == [b];
  }

  /** The first occurrence of c in a + [c] + b, when a lacks c, is right after a. */
  lemma {:induction false} FirstIndexAfter(a: string, b: string, c: char)
    requires c !in a
    ensures FirstIndex(a + [c] + b, c) == |a|
  {
    var s := a + [c] + b;
    if a != [] {
      assert s[0] == a[0];
      assert s[1..] == a[1..] + [c] + b;
      FirstIndexAfter(a[1..], b, c);
    }
  }
}

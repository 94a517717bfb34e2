/**
 * `merge_uec` and its recursion `merge_values` (rust/src/tools.rs,
 * python/uec/tools.py).
 *
 * The recursion inserts conflict paths into a set it carries along; it is
 * a recursive method with a loop over the sorted union of object keys,
 * proved equal to the function `MergeValues`, which yields the merged
 * value and the conflicts together.
 */
module Merge {
  import opened JsonModel
  import opened Utils

  /**
   * `arrays` (the source's `array`) is `"concat"` or anything else (replace); `conflict` is
   * `"base"` or anything else (incoming). Rust leaves both unset by
   * default.
   */
  datatype MergeOptions = MergeOptions(arrays: Option<string>, conflict: Option<string>)

  /** The defaults of Python's `MergeOptions`. */
  const PythonDefaults: MergeOptions := MergeOptions(Some("replace"), Some("incoming"))

  predicate Concatenates(options: MergeOptions) { options.arrays == Some("concat") }

  predicate KeepsBase(options: MergeOptions) { options.conflict == Some("base") }

  datatype Merged = Merged(value: Json, conflicts: set<string>)

  datatype MergedFields = MergedFields(fields: map<string, Json>, conflicts: set<string>)

  datatype MergeResult = MergeResult(value: Json, conflicts: seq<string>)

  /** The path a conflict is recorded under: Python writes the root as `"root"`. */
  function ConflictPath(port: Port, path: string): (r: string)
    ensures path != "" ==> r == path
    ensures port == Python ==> r != ""
  {
    if port == Python && path == "" then "root" else path
  }

  /** A conflict at `path` when the two values differ. */
  function ConflictIf(port: Port, differ: bool, path: string): set<string> {
    if differ then {ConflictPath(port, path)} else {}
  }

  /**
   * `merge_values`: a null incoming keeps base; Python also takes incoming
   * as it is over a null base; arrays concatenate or are replaced, objects
   * merge key by key, anything else is won by incoming unless the policy
   * keeps base. Unequal replaced values record a conflict.
   */
  function MergeValues(port: Port, base: Json, incoming: Json, path: string, options: MergeOptions): Merged
    decreases incoming, 4, 0
  {
    if incoming == Null then Merged(base, {})
    else if port == Python && base == Null then Merged(incoming, {})
    else if base.Arr? && incoming.Arr? then
      if Concatenates(options) then Merged(Arr(base.items + incoming.items), {})
      else Merged(incoming, ConflictIf(port, base != incoming, path))
    else if base.Obj? && incoming.Obj? then
      var merged := MergeObject(port, base, incoming, path, options);
      Merged(Obj(merged.fields), merged.conflicts)
    else Merged(if KeepsBase(options) then base else incoming, ConflictIf(port, base != incoming, path))
  }

  /** Two objects merged over the sorted union of their keys. */
  function MergeObject(port: Port, base: Json, incoming: Json, path: string, options: MergeOptions): MergedFields
    requires base.Obj? && incoming.Obj?
    decreases incoming, 3, 0
  {
    MergeKeys(port, base, incoming, path, options, SortedKeys(base.fields.Keys + incoming.fields.Keys))
  }

  /** The merged value of one key: merged when incoming has the key, base's value otherwise. */
  function MergeKey(port: Port, base: Json, incoming: Json, path: string, options: MergeOptions, key: string): Merged
    requires base.Obj? && incoming.Obj?
    requires key in base.fields || key in incoming.fields
    decreases incoming, 1, 0
  {
    if key in incoming.fields then
      MergeValues(port, MemberOrNull(base.fields, key), incoming.fields[key], ChildPath(path, key), options)
    else Merged(base.fields[key], {})
  }

  /** The keys `keys`, merged in order. */
  function MergeKeys(port: Port, base: Json, incoming: Json, path: string, options: MergeOptions, keys: seq<string>): MergedFields
    requires base.Obj? && incoming.Obj?
    requires forall k :: k in keys ==> k in base.fields || k in incoming.fields
    decreases incoming, 2, |keys|
  {
    if keys == [] then MergedFields(map[], {})
    else
      var prev := MergeKeys(port, base, incoming, path, options, keys[..|keys| - 1]);
      var key := keys[|keys| - 1];
      var entry := MergeKey(port, base, incoming, path, options, key);
      MergedFields(prev.fields[key := entry.value], prev.conflicts + entry.conflicts)
  }

  lemma MergeKeysStep(port: Port, base: Json, incoming: Json, path: string, options: MergeOptions, keys: seq<string>, i: nat)
    requires base.Obj? && incoming.Obj?
    requires forall k :: k in keys ==> k in base.fields || k in incoming.fields
    requires i < |keys|
    ensures keys[..i + 1][..i] == keys[..i]
    ensures (forall k :: k in keys[..i] ==> k in base.fields || k in incoming.fields)
      && (forall k :: k in keys[..i + 1] ==> k in base.fields || k in incoming.fields)
    ensures var prev := MergeKeys(port, base, incoming, path, options, keys[..i]);
      var entry := MergeKey(port, base, incoming, path, options, keys[i]);
      MergeKeys(port, base, incoming, path, options, keys[..i + 1])
        == MergedFields(prev.fields[keys[i] := entry.value], prev.conflicts + entry.conflicts)
  {
    assert keys[..i + 1][..i] == keys[..i];
  }

  /** `merge_values`: returns the merged value and adds its conflicts to `conflicts`. */
  method MergeValuesInto(port: Port, base: Json, incoming: Json, path: string, options: MergeOptions, conflicts: set<string>)
    returns (value: Json, found: set<string>)
    ensures value == MergeValues(port, base, incoming, path, options).value
    ensures found == conflicts + MergeValues(port, base, incoming, path, options).conflicts
    decreases incoming, 2, 0
  {
    found := conflicts;
    if incoming == Null {
      return base, found;
    }
    if port == Python && base == Null {
      return incoming, found;
    }
    if base.Arr? && incoming.Arr? {
      if Concatenates(options) {
        return Arr(base.items + incoming.items), found;
      }
      if base != incoming {
        found := found + {ConflictPath(port, path)};
      }
      return incoming, found;
    }
    if base.Obj? && incoming.Obj? {
      var merged;
      merged, found := MergeObjectsInto(port, base, incoming, path, options, conflicts);
      return Obj(merged), found;
    }
    if base != incoming {
      found := found + {ConflictPath(port, path)};
    }
    value := if KeepsBase(options) then base else incoming;
  }

  /** The object case of `merge_values`: the loop over the sorted union of keys. */
  method MergeObjectsInto(port: Port, base: Json, incoming: Json, path: string, options: MergeOptions, conflicts: set<string>)
    returns (merged: map<string, Json>, found: set<string>)
    requires base.Obj? && incoming.Obj?
    ensures merged == MergeObject(port, base, incoming, path, options).fields
    ensures found == conflicts + MergeObject(port, base, incoming, path, options).conflicts
    decreases incoming, 1, 0
  {
    var keys := SortedKeys(base.fields.Keys + incoming.fields.Keys);
    merged, found := MergeKeysInto(port, base, incoming, path, options, keys, conflicts);
  }

  /** The loop of `merge_values` over `keys`. */
  method MergeKeysInto(port: Port, base: Json, incoming: Json, path: string, options: MergeOptions, keys: seq<string>, conflicts: set<string>)
    returns (merged: map<string, Json>, found: set<string>)
    requires base.Obj? && incoming.Obj?
    requires forall k :: k in keys ==> k in base.fields || k in incoming.fields
    ensures merged == MergeKeys(port, base, incoming, path, options, keys).fields
    ensures found == conflicts + MergeKeys(port, base, incoming, path, options, keys).conflicts
    decreases incoming, 0, 0
  {
    merged := map[];
    found := conflicts;
    for i := 0 to |keys|
      invariant forall k :: k in keys[..i] ==> k in base.fields || k in incoming.fields
      invariant merged == MergeKeys(port, base, incoming, path, options, keys[..i]).fields
      invariant found == conflicts + MergeKeys(port, base, incoming, path, options, keys[..i]).conflicts
    {
      MergeKeysStep(port, base, incoming, path, options, keys, i);
      ghost var prev := MergeKeys(port, base, incoming, path, options, keys[..i]);
      var key := keys[i];
      ghost var entry := MergeKey(port, base, incoming, path, options, key);
      ghost var before := found;
      var mergedValue;
      if key in incoming.fields {
        mergedValue, found := MergeValuesInto(port, MemberOrNull(base.fields, key), incoming.fields[key], ChildPath(path, key), options, found);
      } else {
        mergedValue := base.fields[key];
      }
      assert mergedValue == entry.value && found == before + entry.conflicts;
      merged := merged[key := mergedValue];
    }
    assert keys[..|keys|] == keys;
  }

  /** `MergeOptions::default()` in Rust, `MergeOptions()` in Python (which `options or MergeOptions()` falls back to). */
  function DefaultOptions(port: Port): (r: MergeOptions)
    ensures !Concatenates(r) && !KeepsBase(r)
  {
    if port == Rust then MergeOptions(None, None) else PythonDefaults
  }

  /**
   * The conflicts as `merge_uec` reports them: in ascending order, each
   * once; Rust drops the root path `""`, which Python has already written
   * as `"root"`.
   */
  function ReportedConflicts(port: Port, conflicts: set<string>): (r: seq<string>)
    ensures StrictlySorted(r)
    ensures forall c :: c in r <==> c in conflicts && (port == Rust ==> c != "")
    ensures port == Python ==> |r| == |conflicts|
  {
    if port == Rust then SortedKeys(conflicts - {""}) else SortedKeys(conflicts)
  }

  /** `merge_uec`: the merge from the root, with the conflicts collected into one set. */
  method MergeUec(port: Port, base: Json, incoming: Json, options: MergeOptions) returns (r: MergeResult)
    ensures var m := MergeValues(port, base, incoming, "", options);
      r.value == m.value && r.conflicts == ReportedConflicts(port, m.conflicts)
  {
    var value, conflicts := MergeValuesInto(port, base, incoming, "", options, {});
    r := MergeResult(value, ReportedConflicts(port, conflicts));
  }

  // ---------------------------------------------------------------------
  // Properties of the merge.
  // ---------------------------------------------------------------------

  /** The object case of `MergeValues`, unfolded once. */
  lemma MergeObjectsUnfold(port: Port, base: Json, incoming: Json, path: string, options: MergeOptions)
    requires base.Obj? && incoming.Obj?
    ensures var m := MergeObject(port, base, incoming, path, options);
      MergeValues(port, base, incoming, path, options) == Merged(Obj(m.fields), m.conflicts)
  {
  }

  /** Merging keys builds exactly those keys, each merged on its own, and collects their conflicts. */
  lemma {:induction false} MergeKeysContents(port: Port, base: Json, incoming: Json, path: string, options: MergeOptions, keys: seq<string>)
    requires base.Obj? && incoming.Obj?
    requires forall k :: k in keys ==> k in base.fields || k in incoming.fields
    ensures var m := MergeKeys(port, base, incoming, path, options, keys);
      (forall k :: k in m.fields <==> k in keys)
      && (forall k :: k in keys ==> m.fields[k] == MergeKey(port, base, incoming, path, options, k).value)
      && (forall c :: c in m.conflicts <==> exists k :: k in keys && c in MergeKey(port, base, incoming, path, options, k).conflicts)
    decreases |keys|
  {
    if keys != [] {
      var init := keys[..|keys| - 1];
      assert keys == init + [keys[|keys| - 1]];
      assert forall k :: k in keys <==> k in init || k == keys[|keys| - 1];
      MergeKeysContents(port, base, incoming, path, options, init);
    }
  }

  /**
   * Two objects merge into an object over the union of their keys: a key
   * only base has keeps base's value, a key incoming has is merged from
   * base's value (null when absent) and incoming's.
   */
  lemma MergeObjects(port: Port, base: Json, incoming: Json, path: string, options: MergeOptions)
    requires base.Obj? && incoming.Obj?
    ensures var r := MergeValues(port, base, incoming, path, options).value;
      r.Obj? && r.fields.Keys == base.fields.Keys + incoming.fields.Keys
      && (forall k :: k in base.fields && k !in incoming.fields ==> r.fields[k] == base.fields[k])
      && (forall k :: k in incoming.fields ==>
            r.fields[k] == MergeValues(port, MemberOrNull(base.fields, k), incoming.fields[k], ChildPath(path, k), options).value)
  {
    var keys := SortedKeys(base.fields.Keys + incoming.fields.Keys);
    MergeObjectsUnfold(port, base, incoming, path, options);
    MergeKeysContents(port, base, incoming, path, options, keys);
  }

  /** A conflict of an object merge is a conflict of one of the keys incoming has. */
  lemma MergeObjectConflicts(port: Port, base: Json, incoming: Json, path: string, options: MergeOptions, c: string)
    requires base.Obj? && incoming.Obj?
    ensures c in MergeValues(port, base, incoming, path, options).conflicts <==>
      exists k :: k in incoming.fields
        && c in MergeValues(port, MemberOrNull(base.fields, k), incoming.fields[k], ChildPath(path, k), options).conflicts
  {
    var keys := SortedKeys(base.fields.Keys + incoming.fields.Keys);
    MergeObjectsUnfold(port, base, incoming, path, options);
    MergeKeysContents(port, base, incoming, path, options, keys);
    if c in MergeValues(port, base, incoming, path, options).conflicts {
      var k :| k in keys && c in MergeKey(port, base, incoming, path, options, k).conflicts;
      assert k in incoming.fields;
    } else {
      forall k | k in incoming.fields
        ensures c !in MergeValues(port, MemberOrNull(base.fields, k), incoming.fields[k], ChildPath(path, k), options).conflicts
      {
        assert k in keys;
      }
    }
  }

  /** Merging a value with itself changes nothing and finds no conflict, unless arrays concatenate. */
  lemma {:induction false} MergeSelf(port: Port, x: Json, path: string, options: MergeOptions)
    requires !Concatenates(options)
    ensures MergeValues(port, x, x, path, options) == Merged(x, {})
    decreases x, 1
  {
    if x.Obj? {
      var keys := SortedKeys(x.fields.Keys + x.fields.Keys);
      MergeObjectsUnfold(port, x, x, path, options);
      MergeKeysSelf(port, x, path, options, keys);
      assert (map k | k in keys :: x.fields[k]) == x.fields;
    }
  }

  lemma {:induction false} MergeKeysSelf(port: Port, x: Json, path: string, options: MergeOptions, keys: seq<string>)
    requires !Concatenates(options)
    requires x.Obj? && forall k :: k in keys ==> k in x.fields
    ensures MergeKeys(port, x, x, path, options, keys) == MergedFields(map k | k in keys :: x.fields[k], {})
    decreases x, 0, |keys|
  {
    if keys != [] {
      var init := keys[..|keys| - 1];
      var key := keys[|keys| - 1];
      assert keys == init + [key];
      MergeKeysSelf(port, x, path, options, init);
      MergeSelf(port, x.fields[key], ChildPath(path, key), options);
      assert (map k | k in init :: x.fields[k])[key := x.fields[key]] == (map k | k in keys :: x.fields[k]);
    }
  }

  /** Options matter only through whether arrays concatenate and whether base wins. */
  lemma {:induction false} MergeDependsOnMeaning(port: Port, base: Json, incoming: Json, path: string, o1: MergeOptions, o2: MergeOptions)
    requires Concatenates(o1) == Concatenates(o2) && KeepsBase(o1) == KeepsBase(o2)
    ensures MergeValues(port, base, incoming, path, o1) == MergeValues(port, base, incoming, path, o2)
    decreases incoming, 4, 0
  {
    if base.Obj? && incoming.Obj? {
      MergeObjectsUnfold(port, base, incoming, path, o1);
      MergeObjectsUnfold(port, base, incoming, path, o2);
      MergeKeysDependOnMeaning(port, base, incoming, path, o1, o2, SortedKeys(base.fields.Keys + incoming.fields.Keys));
    }
  }

  lemma {:induction false} MergeKeysDependOnMeaning(port: Port, base: Json, incoming: Json, path: string, o1: MergeOptions, o2: MergeOptions, keys: seq<string>)
    requires Concatenates(o1) == Concatenates(o2) && KeepsBase(o1) == KeepsBase(o2)
    requires base.Obj? && incoming.Obj?
    requires forall k :: k in keys ==> k in base.fields || k in incoming.fields
    ensures MergeKeys(port, base, incoming, path, o1, keys) == MergeKeys(port, base, incoming, path, o2, keys)
    decreases incoming, 2, |keys|
  {
    if keys != [] {
      var key := keys[|keys| - 1];
      MergeKeysDependOnMeaning(port, base, incoming, path, o1, o2, keys[..|keys| - 1]);
      if key in incoming.fields {
        MergeDependsOnMeaning(port, MemberOrNull(base.fields, key), incoming.fields[key], ChildPath(path, key), o1, o2);
      }
    }
  }

  /** Python's default options merge exactly as Rust's unset ones. */
  lemma DefaultsAgree(port: Port, base: Json, incoming: Json, path: string)
    ensures MergeValues(port, base, incoming, path, DefaultOptions(Rust)) == MergeValues(port, base, incoming, path, DefaultOptions(Python))
  {
    MergeDependsOnMeaning(port, base, incoming, path, DefaultOptions(Rust), DefaultOptions(Python));
  }

  /**
   * The conflict policy decides values only where there is a conflict: the
   * conflicts found do not depend on it, and without a conflict the merged
   * value does not either.
   */
  lemma {:induction false} PolicyOnlyResolvesConflicts(port: Port, base: Json, incoming: Json, path: string, o1: MergeOptions, o2: MergeOptions)
    requires Concatenates(o1) == Concatenates(o2)
    ensures MergeValues(port, base, incoming, path, o1).conflicts == MergeValues(port, base, incoming, path, o2).conflicts
    ensures MergeValues(port, base, incoming, path, o1).conflicts == {} ==>
      MergeValues(port, base, incoming, path, o1).value == MergeValues(port, base, incoming, path, o2).value
    decreases incoming, 4, 0
  {
    if base.Obj? && incoming.Obj? {
      MergeObjectsUnfold(port, base, incoming, path, o1);
      MergeObjectsUnfold(port, base, incoming, path, o2);
      KeysPolicyOnlyResolvesConflicts(port, base, incoming, path, o1, o2, SortedKeys(base.fields.Keys + incoming.fields.Keys));
    }
  }

  lemma {:induction false} KeysPolicyOnlyResolvesConflicts(port: Port, base: Json, incoming: Json, path: string, o1: MergeOptions, o2: MergeOptions, keys: seq<string>)
    requires Concatenates(o1) == Concatenates(o2)
    requires base.Obj? && incoming.Obj?
    requires forall k :: k in keys ==> k in base.fields || k in incoming.fields
    ensures MergeKeys(port, base, incoming, path, o1, keys).conflicts == MergeKeys(port, base, incoming, path, o2, keys).conflicts
    ensures MergeKeys(port, base, incoming, path, o1, keys).conflicts == {} ==>
      MergeKeys(port, base, incoming, path, o1, keys).fields == MergeKeys(port, base, incoming, path, o2, keys).fields
    decreases incoming, 2, |keys|
  {
    if keys != [] {
      var key := keys[|keys| - 1];
      KeysPolicyOnlyResolvesConflicts(port, base, incoming, path, o1, o2, keys[..|keys| - 1]);
      if key in incoming.fields {
        PolicyOnlyResolvesConflicts(port, MemberOrNull(base.fields, key), incoming.fields[key], ChildPath(path, key), o1, o2);
      }
    }
  }

  /**
   * A value incoming adds where base has none: Python takes it silently,
   * Rust records a conflict at its path (and keeps the null under the
   * base policy).
   */
  lemma NullBasePorts(base: Json, incoming: Json, path: string, options: MergeOptions)
    requires base == Null && incoming != Null
    ensures MergeValues(Python, base, incoming, path, options) == Merged(incoming, {})
    ensures MergeValues(Rust, base, incoming, path, options)
      == Merged(if KeepsBase(options) then Null else incoming, {path})
  {
  }

  /** A null incoming value keeps base, with no conflict, on both ports. */
  lemma NullIncomingKeepsBase(port: Port, base: Json, path: string, options: MergeOptions)
    ensures MergeValues(port, base, Null, path, options) == Merged(base, {})
  {
  }

  /** Two different scalars at the root: Python reports `"root"`, Rust nothing. */
  lemma RootConflictPorts(base: Json, incoming: Json, options: MergeOptions)
    requires base != Null && incoming != Null && !base.Arr? && !base.Obj? && base != incoming
    ensures ReportedConflicts(Python, MergeValues(Python, base, incoming, "", options).conflicts) == ["root"]
    ensures ReportedConflicts(Rust, MergeValues(Rust, base, incoming, "", options).conflicts) == []
  {
    var py := ReportedConflicts(Python, MergeValues(Python, base, incoming, "", options).conflicts);
    assert "root" in py;
    assert |py| == 1;
  }
}

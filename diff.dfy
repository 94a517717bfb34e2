/**
 * `diff_uec` and its walker `walk_diff` (rust/src/tools.rs,
 * python/uec/tools.py), plus Python's `_deep_equal`.
 *
 * The walker pushes entries onto an output list as it recurses; it is a
 * recursive method with loops over array positions and over the sorted
 * union of object keys, proved equal to the function `WalkDiff`.
 */
module Diff {
  import opened JsonModel
  import opened Tools

  datatype ChangeType = Added | Removed | Changed

  /** An entry with its `change_type`: `before` is absent for an added key, `after` for a removed one. */
  datatype DiffEntry = DiffEntry(path: string, changeType: ChangeType, before: Option<Json>, after: Option<Json>)

  // =====================================================================
  // _deep_equal
  // =====================================================================

  /**
   * Python's `_deep_equal`: lists element by element, dicts by key set and
   * values, anything else by type and `==`.
   */
  function PyDeepEqual(a: Json, b: Json): bool
    decreases a
  {
    match a
    case Arr(x) => b.Arr? && |x| == |b.items| && forall i :: 0 <= i < |x| ==> PyDeepEqual(x[i], b.items[i])
    case Obj(x) => b.Obj? && x.Keys == b.fields.Keys && forall k :: k in x ==> PyDeepEqual(x[k], b.fields[k])
    case _ => a == b
  }

  /** `_deep_equal` is structural equality, so it is reflexive and tells kinds apart. */
  lemma {:induction false} PyDeepEqualIsEquality(a: Json, b: Json)
    ensures PyDeepEqual(a, b) <==> a == b
    decreases a
  {
    match a
    case Arr(x) =>
      if b.Arr? && |x| == |b.items| {
        forall i | 0 <= i < |x|
          ensures PyDeepEqual(x[i], b.items[i]) <==> x[i] == b.items[i]
        {
          PyDeepEqualIsEquality(x[i], b.items[i]);
        }
        if forall i :: 0 <= i < |x| ==> x[i] == b.items[i] {
          assert x == b.items;
        }
      }
    case Obj(x) =>
      if b.Obj? && x.Keys == b.fields.Keys {
        forall k | k in x
          ensures PyDeepEqual(x[k], b.fields[k]) <==> x[k] == b.fields[k]
        {
          PyDeepEqualIsEquality(x[k], b.fields[k]);
        }
        if forall k :: k in x ==> x[k] == b.fields[k] {
          assert x == b.fields;
        }
      }
    case _ =>
  }

  // =====================================================================
  // walk_diff
  // =====================================================================

  /** The path of a `changed` entry: `"root"` at the top. */
  function RootOr(path: string): (r: string)
    ensures r != ""
    ensures path != "" ==> r == path
  {
    if path == "" then "root" else path
  }

  /**
   * Two different values that are not both arrays or both objects give a
   * single `changed` entry; at the top of the walk it is reported at "root".
   */
  lemma RootChange(a: Json, b: Json)
    requires a != b && !(a.Arr? && b.Arr?) && !(a.Obj? && b.Obj?)
    ensures WalkDiff(a, b, "") == [DiffEntry("root", Changed, Some(a), Some(b))]
    ensures forall path :: path != "" ==> WalkDiff(a, b, path) == [DiffEntry(path, Changed, Some(a), Some(b))]
  {
  }

  function ElementOrNull(items: seq<Json>, i: nat): Json {
    if i < |items| then items[i] else Null
  }

  /** A position past the end of one array: its element against `null`. */
  function PaddedDiff(left: Json, right: Json, path: string): seq<DiffEntry> {
    if left == right then [] else [DiffEntry(RootOr(path), Changed, Some(left), Some(right))]
  }

  /** The entries `walk_diff` pushes for `a` against `b` at `path`. */
  function WalkDiff(a: Json, b: Json, path: string): seq<DiffEntry>
    decreases a, 3, 0
  {
    if a == b then []
    else if a.Arr? && b.Arr? then
      ElementsDiff(a, b, path, if |a.items| >= |b.items| then |a.items| else |b.items|)
    else if a.Obj? && b.Obj? then
      KeysDiff(a, b, path, SortedKeys(a.fields.Keys + b.fields.Keys))
    else [DiffEntry(RootOr(path), Changed, Some(a), Some(b))]
  }

  /** The entries for the first `n` positions of two arrays. */
  function ElementsDiff(a: Json, b: Json, path: string, n: nat): seq<DiffEntry>
    requires a.Arr? && b.Arr?
    decreases a, 2, n
  {
    if n == 0 then [] else ElementsDiff(a, b, path, n - 1) + ElementDiff(a, b, path, n - 1)
  }

  function ElementDiff(a: Json, b: Json, path: string, i: nat): seq<DiffEntry>
    requires a.Arr? && b.Arr?
    decreases a, 1, 0
  {
    if i < |a.items| && i < |b.items| then WalkDiff(a.items[i], b.items[i], IndexPath(path, i))
    else PaddedDiff(ElementOrNull(a.items, i), ElementOrNull(b.items, i), IndexPath(path, i))
  }

  /** The entries for `keys`, visited in order, of two objects. */
  function KeysDiff(a: Json, b: Json, path: string, keys: seq<string>): seq<DiffEntry>
    requires a.Obj? && b.Obj?
    decreases a, 2, |keys|
  {
    if keys == [] then []
    else KeysDiff(a, b, path, keys[..|keys| - 1]) + KeyDiff(a, b, path, keys[|keys| - 1])
  }

  function KeyDiff(a: Json, b: Json, path: string, key: string): seq<DiffEntry>
    requires a.Obj? && b.Obj?
    decreases a, 1, 0
  {
    var next := ChildPath(path, key);
    if key in a.fields && key in b.fields then WalkDiff(a.fields[key], b.fields[key], next)
    else if key in b.fields then [DiffEntry(next, Added, None, Some(b.fields[key]))]
    else if key in a.fields then [DiffEntry(next, Removed, Some(a.fields[key]), None)]
    else []
  }

  /** The padded comparison is what the walker does with a `null` against the other element. */
  lemma PaddedDiffIsWalk(left: Json, right: Json, path: string)
    requires left == Null || right == Null
    requires path != ""
    ensures PaddedDiff(left, right, path) == WalkDiff(left, right, path)
  {
  }

  lemma ElementsDiffStep(a: Json, b: Json, path: string, n: nat)
    requires a.Arr? && b.Arr?
    ensures ElementsDiff(a, b, path, n + 1) == ElementsDiff(a, b, path, n) + ElementDiff(a, b, path, n)
  {
  }

  lemma KeysDiffStep(a: Json, b: Json, path: string, keys: seq<string>, i: nat)
    requires a.Obj? && b.Obj?
    requires i < |keys|
    ensures KeysDiff(a, b, path, keys[..i + 1]) == KeysDiff(a, b, path, keys[..i]) + KeyDiff(a, b, path, keys[i])
  {
    assert keys[..i + 1][..i] == keys[..i];
  }

  /** `walk_diff`: pushes the entries for `a` against `b` onto `out`. */
  method WalkDiffInto(a: Json, b: Json, path: string, out: seq<DiffEntry>) returns (res: seq<DiffEntry>)
    ensures res == out + WalkDiff(a, b, path)
    decreases a
  {
    if a == b {
      return out;
    }
    if a.Arr? && b.Arr? {
      var maxLen := if |a.items| >= |b.items| then |a.items| else |b.items|;
      var found := [];
      for index := 0 to maxLen
        invariant found == ElementsDiff(a, b, path, index)
      {
        ElementsDiffStep(a, b, path, index);
        var nextPath := IndexPath(path, index);
        if index < |a.items| && index < |b.items| {
          found := WalkDiffInto(a.items[index], b.items[index], nextPath, found);
        } else {
          var left := ElementOrNull(a.items, index);
          var right := ElementOrNull(b.items, index);
          if left != right {
            found := found + [DiffEntry(RootOr(nextPath), Changed, Some(left), Some(right))];
          }
        }
      }
      return out + found;
    }
    if a.Obj? && b.Obj? {
      var keys := SortedKeys(a.fields.Keys + b.fields.Keys);
      var found := [];
      for i := 0 to |keys|
        invariant found == KeysDiff(a, b, path, keys[..i])
      {
        KeysDiffStep(a, b, path, keys, i);
        var key := keys[i];
        var nextPath := ChildPath(path, key);
        if key in a.fields && key in b.fields {
          found := WalkDiffInto(a.fields[key], b.fields[key], nextPath, found);
        } else if key in b.fields {
          found := found + [DiffEntry(nextPath, Added, None, Some(b.fields[key]))];
        } else if key in a.fields {
          found := found + [DiffEntry(nextPath, Removed, Some(a.fields[key]), None)];
        }
      }
      assert keys[..|keys|] == keys;
      return out + found;
    }
    res := out + [DiffEntry(RootOr(path), Changed, Some(a), Some(b))];
  }

  /** `diff_uec`: the walk over both cards after `normalize_uec`. */
  method DiffUec(left: Json, right: Json) returns (changes: seq<DiffEntry>)
    ensures changes == WalkDiff(NormalizedUec(left), NormalizedUec(right), "")
    ensures NormalizedUec(left) == NormalizedUec(right) ==> changes == []
  {
    var a := NormalizeUec(left);
    var b := NormalizeUec(right);
    changes := WalkDiffInto(a, b, "", []);
  }

  // =====================================================================
  // Properties
  // =====================================================================

  /** Two values that are not both arrays or both objects differ, if at all, in one `changed` entry. */
  lemma ScalarDiff(a: Json, b: Json, path: string)
    requires !(a.Arr? && b.Arr?) && !(a.Obj? && b.Obj?)
    ensures a == b ==> WalkDiff(a, b, path) == []
    ensures a != b ==> WalkDiff(a, b, path) == [DiffEntry(RootOr(path), Changed, Some(a), Some(b))]
  {
  }

  /**
   * Past the end of the shorter array the other array's element is
   * compared with `null`, so a trailing `null` goes unreported.
   */
  lemma ArrayPadding(a: Json, b: Json, path: string, i: nat)
    requires a.Arr? && b.Arr?
    requires |a.items| <= i < |b.items|
    ensures ElementDiff(a, b, path, i)
      == if b.items[i] == Null then [] else [DiffEntry(IndexPath(path, i), Changed, Some(Null), Some(b.items[i]))]
  {
  }

  /** An array and the same array with a trailing `null` have no differences. */
  lemma TrailingNullUnreported()
    ensures WalkDiff(Arr([]), Arr([Null]), "") == []
  {
    assert ElementsDiff(Arr([]), Arr([Null]), "", 1) == ElementsDiff(Arr([]), Arr([Null]), "", 0) + ElementDiff(Arr([]), Arr([Null]), "", 0);
  }

  lemma {:induction false} KeysDiffContains(a: Json, b: Json, path: string, keys: seq<string>, key: string, e: DiffEntry)
    requires a.Obj? && b.Obj?
    requires key in keys
    requires e in KeyDiff(a, b, path, key)
    ensures e in KeysDiff(a, b, path, keys)
    decreases |keys|
  {
    var init := keys[..|keys| - 1];
    assert KeysDiff(a, b, path, keys) == KeysDiff(a, b, path, init) + KeyDiff(a, b, path, keys[|keys| - 1]);
    if key != keys[|keys| - 1] {
      assert key in init by {
        var j :| 0 <= j < |keys| && keys[j] == key;
        assert init[j] == key;
      }
      KeysDiffContains(a, b, path, init, key, e);
    }
  }

  /** A key only the right object has is reported `added`, with its value. */
  lemma AddedKey(a: Json, b: Json, path: string, key: string)
    requires a.Obj? && b.Obj?
    requires key !in a.fields && key in b.fields
    ensures DiffEntry(ChildPath(path, key), Added, None, Some(b.fields[key])) in WalkDiff(a, b, path)
  {
    ObjectDiffIsKeysDiff(a, b, path, key);
    var e := DiffEntry(ChildPath(path, key), Added, None, Some(b.fields[key]));
    assert KeyDiff(a, b, path, key) == [e];
    KeysDiffContains(a, b, path, SortedKeys(a.fields.Keys + b.fields.Keys), key, e);
  }

  /** A key only the left object has is reported `removed`, with its value. */
  lemma RemovedKey(a: Json, b: Json, path: string, key: string)
    requires a.Obj? && b.Obj?
    requires key in a.fields && key !in b.fields
    ensures DiffEntry(ChildPath(path, key), Removed, Some(a.fields[key]), None) in WalkDiff(a, b, path)
  {
    ObjectDiffIsKeysDiff(a, b, path, key);
    var e := DiffEntry(ChildPath(path, key), Removed, Some(a.fields[key]), None);
    assert KeyDiff(a, b, path, key) == [e];
    KeysDiffContains(a, b, path, SortedKeys(a.fields.Keys + b.fields.Keys), key, e);
  }

  lemma ObjectDiffIsKeysDiff(a: Json, b: Json, path: string, key: string)
    requires a.Obj? && b.Obj?
    requires (key in a.fields) != (key in b.fields)
    ensures WalkDiff(a, b, path) == KeysDiff(a, b, path, SortedKeys(a.fields.Keys + b.fields.Keys))
    ensures key in SortedKeys(a.fields.Keys + b.fields.Keys)
  {
    assert a.fields != b.fields;
  }

  // --- symmetry ---------------------------------------------------------

  function Flip(t: ChangeType): ChangeType {
    match t
    case Added => Removed
    case Removed => Added
    case Changed => Changed
  }

  /** An entry seen from the other side: before and after swap, added and removed swap. */
  function MirrorEntry(e: DiffEntry): DiffEntry {
    DiffEntry(e.path, Flip(e.changeType), e.after, e.before)
  }

  function Mirror(entries: seq<DiffEntry>): (r: seq<DiffEntry>)
    ensures |r| == |entries|
    ensures forall i :: 0 <= i < |entries| ==> r[i] == MirrorEntry(entries[i])
  {
    seq(|entries|, i requires 0 <= i < |entries| => MirrorEntry(entries[i]))
  }

  lemma MirrorConcat(x: seq<DiffEntry>, y: seq<DiffEntry>)
    ensures Mirror(x + y) == Mirror(x) + Mirror(y)
  {
  }

  lemma {:induction false} ElementsDiffMirror(a: Json, b: Json, path: string, n: nat)
    requires a.Arr? && b.Arr?
    ensures ElementsDiff(b, a, path, n) == Mirror(ElementsDiff(a, b, path, n))
    decreases a, 2, n
  {
    if n > 0 {
      ElementsDiffMirror(a, b, path, n - 1);
      var i := n - 1;
      if i < |a.items| && i < |b.items| {
        WalkDiffMirror(a.items[i], b.items[i], IndexPath(path, i));
      }
      MirrorConcat(ElementsDiff(a, b, path, n - 1), ElementDiff(a, b, path, n - 1));
    }
  }

  lemma {:induction false} KeysDiffMirror(a: Json, b: Json, path: string, keys: seq<string>)
    requires a.Obj? && b.Obj?
    ensures KeysDiff(b, a, path, keys) == Mirror(KeysDiff(a, b, path, keys))
    decreases a, 2, |keys|
  {
    if keys != [] {
      KeysDiffMirror(a, b, path, keys[..|keys| - 1]);
      var key := keys[|keys| - 1];
      if key in a.fields && key in b.fields {
        WalkDiffMirror(a.fields[key], b.fields[key], ChildPath(path, key));
      }
      MirrorConcat(KeysDiff(a, b, path, keys[..|keys| - 1]), KeyDiff(a, b, path, key));
    }
  }

  /** Swapping the arguments mirrors every entry and keeps their order. */
  lemma {:induction false} WalkDiffMirror(a: Json, b: Json, path: string)
    ensures WalkDiff(b, a, path) == Mirror(WalkDiff(a, b, path))
    decreases a, 3, 0
  {
    if a != b {
      if a.Arr? && b.Arr? {
        ElementsDiffMirror(a, b, path, if |a.items| >= |b.items| then |a.items| else |b.items|);
      } else if a.Obj? && b.Obj? {
        assert b.fields.Keys + a.fields.Keys == a.fields.Keys + b.fields.Keys;
        KeysDiffMirror(a, b, path, SortedKeys(a.fields.Keys + b.fields.Keys));
      }
    }
  }
}

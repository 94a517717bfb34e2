/**
 * `extract_assets` and `rewrite_assets` (rust/src/tools.rs,
 * python/uec/tools.py): a walk over a card that stops at every likely
 * asset string (`http://`, `https://`, `data:`) and every asset locator
 * object, reporting it, or handing it to a mapper, with its path.
 *
 * Both walks are specified by functions (`ExtractedAssets`, `Rewritten`)
 * over arrays by index and objects by ascending key; the methods are the
 * source's loops, proved equal to them.
 */
module Assets {
  import opened JsonModel
  import opened Utils

  /** `"string"` or `"locator"`. */
  datatype AssetKind = StringAsset | LocatorAsset

  datatype AssetReference = AssetReference(path: string, kind: AssetKind, value: Json)

  function KindName(kind: AssetKind): (r: string)
    ensures r == "string" <==> kind == StringAsset
    ensures r == "locator" <==> kind == LocatorAsset
  {
    match kind
    case StringAsset => "string"
    case LocatorAsset => "locator"
  }

  /** The reference the walk reports at `v`, if `v` is an asset: a likely asset string first, then a locator. */
  function AssetAt(v: Json, path: string): (r: Option<AssetReference>)
    ensures r.Some? <==> IsLikelyAssetString(v) || IsAssetLocatorObject(v)
    ensures r.Some? ==> r.value.path == path && r.value.value == v
    ensures r.Some? ==> (r.value.kind == StringAsset <==> IsLikelyAssetString(v))
  {
    if IsLikelyAssetString(v) then Some(AssetReference(path, StringAsset, v))
    else if IsAssetLocatorObject(v) then Some(AssetReference(path, LocatorAsset, v))
    else None
  }

  // ---------------------------------------------------------------------
  // `extract_assets`
  // ---------------------------------------------------------------------

  /** The references found under `v` at `path`, in walk order. */
  function ExtractedAssets(v: Json, path: string): seq<AssetReference>
    decreases v, 1, 0
  {
    match AssetAt(v, path)
    case Some(a) => [a]
    case None =>
      if v.Arr? then ElementAssets(v, path, |v.items|)
      else if v.Obj? then KeyAssets(v, path, SortedKeys(v.fields.Keys))
      else []
  }

  /** The references under the first `n` elements of an array. */
  function ElementAssets(v: Json, path: string, n: nat): seq<AssetReference>
    requires v.Arr? && n <= |v.items|
    decreases v, 0, n
  {
    if n == 0 then []
    else ElementAssets(v, path, n - 1) + ExtractedAssets(v.items[n - 1], IndexPath(path, n - 1))
  }

  /** The references under the members `keys` of an object, in that order. */
  function KeyAssets(v: Json, path: string, keys: seq<string>): seq<AssetReference>
    requires v.Obj? && forall k :: k in keys ==> k in v.fields
    decreases v, 0, |keys|
  {
    if keys == [] then []
    else
      var key := keys[|keys| - 1];
      KeyAssets(v, path, keys[..|keys| - 1]) + ExtractedAssets(v.fields[key], ChildPath(path, key))
  }

  lemma KeyAssetsStep(v: Json, path: string, keys: seq<string>, i: nat)
    requires v.Obj? && forall k :: k in keys ==> k in v.fields
    requires i < |keys|
    ensures keys[..i + 1][..i] == keys[..i]
    ensures (forall k :: k in keys[..i] ==> k in v.fields) && (forall k :: k in keys[..i + 1] ==> k in v.fields)
    ensures KeyAssets(v, path, keys[..i + 1])
      == KeyAssets(v, path, keys[..i]) + ExtractedAssets(v.fields[keys[i]], ChildPath(path, keys[i]))
  {
    assert keys[..i + 1][..i] == keys[..i];
  }

  /** `extract_assets_walk`: pushes the references under `v` onto `assets`. */
  method ExtractAssetsWalk(v: Json, path: string, assets: seq<AssetReference>) returns (res: seq<AssetReference>)
    ensures res == assets + ExtractedAssets(v, path)
    decreases v
  {
    if IsLikelyAssetString(v) {
      return assets + [AssetReference(path, StringAsset, v)];
    }
    if v.Obj? && IsAssetLocatorObject(v) {
      return assets + [AssetReference(path, LocatorAsset, v)];
    }
    if v.Arr? {
      var found := [];
      for index := 0 to |v.items|
        invariant found == ElementAssets(v, path, index)
      {
        found := ExtractAssetsWalk(v.items[index], IndexPath(path, index), found);
      }
      return assets + found;
    }
    if v.Obj? {
      var keys := SortedKeys(v.fields.Keys);
      var found := [];
      for i := 0 to |keys|
        invariant found == KeyAssets(v, path, keys[..i])
      {
        KeyAssetsStep(v, path, keys, i);
        var key := keys[i];
        found := ExtractAssetsWalk(v.fields[key], ChildPath(path, key), found);
      }
      assert keys[..|keys|] == keys;
      return assets + found;
    }
    res := assets;
  }

  /** `extract_assets`: the walk from the root path `""`. */
  method ExtractAssets(card: Json) returns (assets: seq<AssetReference>)
    ensures assets == ExtractedAssets(card, "")
  {
    assets := ExtractAssetsWalk(card, "", []);
  }

  // ---------------------------------------------------------------------
  // `rewrite_assets`
  // ---------------------------------------------------------------------

  /** `v` with every asset the walk finds replaced by what `mapper` returns for its reference. */
  function Rewritten(v: Json, path: string, mapper: AssetReference -> Json): Json
    decreases v, 1, 0
  {
    match AssetAt(v, path)
    case Some(a) => mapper(a)
    case None =>
      if v.Arr? then Arr(RewrittenElements(v, path, mapper, |v.items|))
      else if v.Obj? then Obj(RewrittenKeys(v, path, mapper, SortedKeys(v.fields.Keys)))
      else v
  }

  /** The first `n` elements of an array, rewritten. */
  function RewrittenElements(v: Json, path: string, mapper: AssetReference -> Json, n: nat): seq<Json>
    requires v.Arr? && n <= |v.items|
    decreases v, 0, n
  {
    if n == 0 then []
    else RewrittenElements(v, path, mapper, n - 1) + [Rewritten(v.items[n - 1], IndexPath(path, n - 1), mapper)]
  }

  /** The members `keys` of an object, rewritten. */
  function RewrittenKeys(v: Json, path: string, mapper: AssetReference -> Json, keys: seq<string>): map<string, Json>
    requires v.Obj? && forall k :: k in keys ==> k in v.fields
    decreases v, 0, |keys|
  {
    if keys == [] then map[]
    else
      var key := keys[|keys| - 1];
      RewrittenKeys(v, path, mapper, keys[..|keys| - 1])[key := Rewritten(v.fields[key], ChildPath(path, key), mapper)]
  }

  lemma RewrittenKeysStep(v: Json, path: string, mapper: AssetReference -> Json, keys: seq<string>, i: nat)
    requires v.Obj? && forall k :: k in keys ==> k in v.fields
    requires i < |keys|
    ensures keys[..i + 1][..i] == keys[..i]
    ensures (forall k :: k in keys[..i] ==> k in v.fields) && (forall k :: k in keys[..i + 1] ==> k in v.fields)
    ensures RewrittenKeys(v, path, mapper, keys[..i + 1])
      == RewrittenKeys(v, path, mapper, keys[..i])[keys[i] := Rewritten(v.fields[keys[i]], ChildPath(path, keys[i]), mapper)]
  {
    assert keys[..i + 1][..i] == keys[..i];
  }

  /** The inner `walk` of `rewrite_assets`. */
  method RewriteWalk(v: Json, path: string, mapper: AssetReference -> Json) returns (r: Json)
    ensures r == Rewritten(v, path, mapper)
    decreases v
  {
    if IsLikelyAssetString(v) {
      return mapper(AssetReference(path, StringAsset, v));
    }
    if v.Obj? && IsAssetLocatorObject(v) {
      return mapper(AssetReference(path, LocatorAsset, v));
    }
    if v.Arr? {
      var items := [];
      for index := 0 to |v.items|
        invariant items == RewrittenElements(v, path, mapper, index)
      {
        var item := RewriteWalk(v.items[index], IndexPath(path, index), mapper);
        items := items + [item];
      }
      return Arr(items);
    }
    if v.Obj? {
      var keys := SortedKeys(v.fields.Keys);
      var out := map[];
      for i := 0 to |keys|
        invariant out == RewrittenKeys(v, path, mapper, keys[..i])
      {
        RewrittenKeysStep(v, path, mapper, keys, i);
        var key := keys[i];
        var item := RewriteWalk(v.fields[key], ChildPath(path, key), mapper);
        out := out[key := item];
      }
      assert keys[..|keys|] == keys;
      return Obj(out);
    }
    r := v;
  }

  /** `rewrite_assets`: the walk from the root path `""`. */
  method RewriteAssets(card: Json, mapper: AssetReference -> Json) returns (r: Json)
    ensures r == Rewritten(card, "", mapper)
  {
    r := RewriteWalk(card, "", mapper);
  }

  // ---------------------------------------------------------------------
  // Properties
  // ---------------------------------------------------------------------

  /** An asset is reported as a whole: the walk does not descend into a matched locator or string. */
  lemma AssetIsLeaf(v: Json, path: string, mapper: AssetReference -> Json)
    requires IsLikelyAssetString(v) || IsAssetLocatorObject(v)
    ensures var a := AssetReference(path, if IsLikelyAssetString(v) then StringAsset else LocatorAsset, v);
      ExtractedAssets(v, path) == [a] && Rewritten(v, path, mapper) == mapper(a)
  {
  }

  /** What the walk reports: an asset string or a locator object of the matching kind, under `path`. */
  predicate ReportedUnder(a: AssetReference, path: string) {
    StartsWith(a.path, path)
    && (a.kind == StringAsset ==> IsLikelyAssetString(a.value))
    && (a.kind == LocatorAsset ==> IsAssetLocatorObject(a.value))
  }

  lemma ChildPathExtends(path: string, key: string)
    ensures StartsWith(ChildPath(path, key), path)
  {
    if path != "" {
      StartsWithConcat(path, "." + key);
      assert path + "." + key == path + ("." + key);
    }
  }

  lemma IndexPathExtends(path: string, index: nat)
    ensures StartsWith(IndexPath(path, index), path)
  {
    StartsWithConcat(path, "[" + NatToString(index) + "]");
    assert IndexPath(path, index) == path + ("[" + NatToString(index) + "]");
  }

  /** Every extracted reference is an asset of its kind, at a path under the walk's path. */
  lemma {:induction false} ExtractedAreAssets(v: Json, path: string)
    ensures forall a :: a in ExtractedAssets(v, path) ==> ReportedUnder(a, path)
    decreases v, 1, 0
  {
    if AssetAt(v, path).None? {
      if v.Arr? {
        ElementAssetsAreAssets(v, path, |v.items|);
      } else if v.Obj? {
        KeyAssetsAreAssets(v, path, SortedKeys(v.fields.Keys));
      }
    }
  }

  lemma {:induction false} ElementAssetsAreAssets(v: Json, path: string, n: nat)
    requires v.Arr? && n <= |v.items|
    ensures forall a :: a in ElementAssets(v, path, n) ==> ReportedUnder(a, path)
    decreases v, 0, n
  {
    if n > 0 {
      var childPath := IndexPath(path, n - 1);
      ElementAssetsAreAssets(v, path, n - 1);
      ExtractedAreAssets(v.items[n - 1], childPath);
      IndexPathExtends(path, n - 1);
      forall a | a in ExtractedAssets(v.items[n - 1], childPath)
        ensures StartsWith(a.path, path)
      {
        StartsWithTrans(a.path, childPath, path);
      }
    }
  }

  lemma {:induction false} KeyAssetsAreAssets(v: Json, path: string, keys: seq<string>)
    requires v.Obj? && forall k :: k in keys ==> k in v.fields
    ensures forall a :: a in KeyAssets(v, path, keys) ==> ReportedUnder(a, path)
    decreases v, 0, |keys|
  {
    if keys != [] {
      var key := keys[|keys| - 1];
      var childPath := ChildPath(path, key);
      KeyAssetsAreAssets(v, path, keys[..|keys| - 1]);
      ExtractedAreAssets(v.fields[key], childPath);
      ChildPathExtends(path, key);
      forall a | a in ExtractedAssets(v.fields[key], childPath)
        ensures StartsWith(a.path, path)
      {
        StartsWithTrans(a.path, childPath, path);
      }
    }
  }

  /** A mapper that gives back every extracted asset unchanged leaves the card unchanged. */
  predicate FixesAll(mapper: AssetReference -> Json, assets: seq<AssetReference>) {
    forall a :: a in assets ==> mapper(a) == a.value
  }

  lemma {:induction false} RewriteFixed(v: Json, path: string, mapper: AssetReference -> Json)
    requires FixesAll(mapper, ExtractedAssets(v, path))
    ensures Rewritten(v, path, mapper) == v
    decreases v, 1, 0
  {
    if AssetAt(v, path).None? {
      if v.Arr? {
        RewriteElementsFixed(v, path, mapper, |v.items|);
        assert v.items[..|v.items|] == v.items;
      } else if v.Obj? {
        var keys := SortedKeys(v.fields.Keys);
        RewriteKeysFixed(v, path, mapper, keys);
        assert (map k | k in keys :: v.fields[k]) == v.fields;
      }
    }
  }

  lemma {:induction false} RewriteElementsFixed(v: Json, path: string, mapper: AssetReference -> Json, n: nat)
    requires v.Arr? && n <= |v.items|
    requires FixesAll(mapper, ElementAssets(v, path, n))
    ensures RewrittenElements(v, path, mapper, n) == v.items[..n]
    decreases v, 0, n
  {
    if n > 0 {
      var rest := ExtractedAssets(v.items[n - 1], IndexPath(path, n - 1));
      assert ElementAssets(v, path, n) == ElementAssets(v, path, n - 1) + rest;
      RewriteElementsFixed(v, path, mapper, n - 1);
      RewriteFixed(v.items[n - 1], IndexPath(path, n - 1), mapper);
      assert v.items[..n] == v.items[..n - 1] + [v.items[n - 1]];
    }
  }

  lemma {:induction false} RewriteKeysFixed(v: Json, path: string, mapper: AssetReference -> Json, keys: seq<string>)
    requires v.Obj? && forall k :: k in keys ==> k in v.fields
    requires FixesAll(mapper, KeyAssets(v, path, keys))
    ensures RewrittenKeys(v, path, mapper, keys) == map k | k in keys :: v.fields[k]
    decreases v, 0, |keys|
  {
    if keys != [] {
      var init := keys[..|keys| - 1];
      var key := keys[|keys| - 1];
      assert keys == init + [key];
      var rest := ExtractedAssets(v.fields[key], ChildPath(path, key));
      assert KeyAssets(v, path, keys) == KeyAssets(v, path, init) + rest;
      RewriteKeysFixed(v, path, mapper, init);
      RewriteFixed(v.fields[key], ChildPath(path, key), mapper);
      assert (map k | k in init :: v.fields[k])[key := v.fields[key]] == (map k | k in keys :: v.fields[k]);
    }
  }

  /** The identity mapper (`|asset| asset.value`) leaves every card unchanged. */
  lemma RewriteIdentity(card: Json)
    ensures Rewritten(card, "", (a: AssetReference) => a.value) == card
  {
    RewriteFixed(card, "", (a: AssetReference) => a.value);
  }

  /** Rewriting keeps the shape of what is not an asset: arrays keep their length, objects their keys. */
  lemma RewriteKeepsShape(v: Json, path: string, mapper: AssetReference -> Json)
    requires AssetAt(v, path).None?
    ensures v.Arr? ==> Rewritten(v, path, mapper).Arr? && |Rewritten(v, path, mapper).items| == |v.items|
    ensures v.Obj? ==> Rewritten(v, path, mapper).Obj? && Rewritten(v, path, mapper).fields.Keys == v.fields.Keys
    ensures !v.Arr? && !v.Obj? ==> Rewritten(v, path, mapper) == v
  {
    if v.Arr? {
      RewrittenElementsLength(v, path, mapper, |v.items|);
    } else if v.Obj? {
      RewrittenKeysDomain(v, path, mapper, SortedKeys(v.fields.Keys));
    }
  }

  lemma {:induction false} RewrittenElementsLength(v: Json, path: string, mapper: AssetReference -> Json, n: nat)
    requires v.Arr? && n <= |v.items|
    ensures |RewrittenElements(v, path, mapper, n)| == n
    decreases n
  {
    if n > 0 {
      RewrittenElementsLength(v, path, mapper, n - 1);
    }
  }

  lemma {:induction false} RewrittenKeysDomain(v: Json, path: string, mapper: AssetReference -> Json, keys: seq<string>)
    requires v.Obj? && forall k :: k in keys ==> k in v.fields
    ensures forall k :: k in RewrittenKeys(v, path, mapper, keys) <==> k in keys
    decreases |keys|
  {
    if keys != [] {
      var init := keys[..|keys| - 1];
      assert keys == init + [keys[|keys| - 1]];
      RewrittenKeysDomain(v, path, mapper, init);
    }
  }
}

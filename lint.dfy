/**
 * `lint_uec` (rust/src/tools.rs, python/uec/tools.py): quality warnings
 * on a card, in a fixed order (blank description, payload timestamps out
 * of order, meta timestamps out of order, unknown selected variant, very
 * large inline assets), and `ok` exactly when there are none. A card
 * without an object payload gets the single shape warning.
 *
 * The ports differ in three places, each stated below: which characters
 * count as white space, which numbers are timestamps (Rust's `as_i64`),
 * and how the size of inline data is measured (UTF-8 bytes in Rust, code
 * points in Python).
 */
module Lint {
  import opened JsonModel
  import opened Utils
  import opened Assets

  datatype LintResult = LintResult(ok: bool, warnings: seq<string>)

  const ShapeWarning: string := "root: not a valid UEC object shape"
  const BlankDescriptionWarning: string := "payload.description is an empty string"
  const PayloadTimesWarning: string := "payload.createdAt is greater than payload.updatedAt"
  const MetaTimesWarning: string := "meta.createdAt is greater than meta.updatedAt"
  const UnknownVariantWarning: string := "payload.scene.selectedVariant does not match any variant id"
  const LargeAssetSuffix: string := ": inline_base64 asset is very large"

  /** Inline data longer than this is reported. */
  const LargeAssetLimit: nat := 200000

  // ---------------------------------------------------------------------
  // White space: what `str::trim` (Rust) and `str.strip` (Python) remove.
  // ---------------------------------------------------------------------

  /** Unicode `White_Space`, the set Rust trims. */
  predicate UnicodeWhiteSpace(c: char) {
    ('\t' <= c <= '\r') || c == ' ' || c == '\U{85}' || c == '\U{A0}' || c == '\U{1680}'
    || ('\U{2000}' <= c <= '\U{200A}') || c == '\U{2028}' || c == '\U{2029}'
    || c == '\U{202F}' || c == '\U{205F}' || c == '\U{3000}'
  }

  /** Python's `str.isspace` adds the four information separators U+001C to U+001F. */
  predicate IsWhiteSpace(port: Port, c: char) {
    UnicodeWhiteSpace(c) || (port == Python && '\U{1C}' <= c <= '\U{1F}')
  }

  /** Trimming `s` leaves nothing. */
  predicate Blank(port: Port, s: string) {
    forall i :: 0 <= i < |s| ==> IsWhiteSpace(port, s[i])
  }

  // ---------------------------------------------------------------------
  // Timestamps
  // ---------------------------------------------------------------------

  const I64Min: int := -0x8000_0000_0000_0000
  const I64Max: int := 0x7FFF_FFFF_FFFF_FFFF

  /**
   * A timestamp field: Rust takes numbers `as_i64` gives back, Python any
   * number that is not a boolean.
   */
  function Timestamp(port: Port, m: map<string, Json>, key: string): (r: Option<int>)
    ensures r.Some? <==> key in m && m[key].Num? && (port == Python || I64Min <= m[key].n <= I64Max)
    ensures r.Some? ==> r.value == m[key].n
  {
    if key in m && m[key].Num? && (port == Python || I64Min <= m[key].n <= I64Max) then Some(m[key].n)
    else None
  }

  predicate CreatedAfterUpdated(port: Port, m: map<string, Json>) {
    var created := Timestamp(port, m, "createdAt");
    var updated := Timestamp(port, m, "updatedAt");
    created.Some? && updated.Some? && created.value > updated.value
  }

  // ---------------------------------------------------------------------
  // The selected variant of a v2 scene
  // ---------------------------------------------------------------------

  /** Some object among `variants` has the string id `id`. */
  predicate HasVariantId(variants: seq<Json>, id: string) {
    exists i :: 0 <= i < |variants| && Member(variants[i], "id") == Some(Str(id))
  }

  /** `card.schema.version`, when it is a string. */
  function SchemaVersionOf(card: Json): (r: Option<string>)
    ensures r.Some? <==> (card.Obj? && "schema" in card.fields && card.fields["schema"].Obj?
      && "version" in card.fields["schema"].fields && card.fields["schema"].fields["version"].Str?)
    ensures r.Some? ==> card.fields["schema"].fields["version"] == Str(r.value)
  {
    match Member(card, "schema")
    case Some(schema) => AsString(Member(schema, "version"))
    case None => None
  }

  /** A v2 card whose scene names a selected variant that no variant has as its id. */
  predicate UnknownSelectedVariant(card: Json, payload: map<string, Json>) {
    SchemaVersionOf(card) == Some(SchemaVersionV2)
    && match Get(payload, "scene")
      case Some(Obj(scene)) =>
        (match (Get(scene, "selectedVariant"), Get(scene, "variants"))
         case (Some(Str(selected)), Some(Arr(variants))) => !HasVariantId(variants, selected)
         case _ => false)
      case _ => false
  }

  // ---------------------------------------------------------------------
  // Large inline assets
  // ---------------------------------------------------------------------

  /** The number of bytes of `c` in UTF-8. */
  function Utf8Width(c: char): (r: nat)
    ensures 1 <= r <= 4
    ensures r == 1 <==> c < '\U{80}'
  {
    if c < '\U{80}' then 1 else if c < '\U{800}' then 2 else if c < '\U{10000}' then 3 else 4
  }

  /** `str::len`: the length of `s` in UTF-8 bytes. */
  function Utf8Length(s: string): (r: nat)
    ensures r >= |s|
  {
    if s == [] then 0 else Utf8Length(s[..|s| - 1]) + Utf8Width(s[|s| - 1])
  }

  /** The length the port compares with the limit: UTF-8 bytes in Rust, code points in Python. */
  function DataLength(port: Port, data: string): nat {
    if port == Rust then Utf8Length(data) else |data|
  }

  /** A locator of type `inline_base64` whose string `data` is longer than the limit. */
  predicate IsLargeInline(port: Port, a: AssetReference) {
    a.kind == LocatorAsset
    && AsString(Member(a.value, "type")) == Some("inline_base64")
    && match AsString(Member(a.value, "data"))
      case Some(data) => DataLength(port, data) > LargeAssetLimit
      case None => false
  }

  function LargeAssetWarning(path: string): string {
    path + LargeAssetSuffix
  }

  /** One warning per large inline asset, in the order of `assets`. */
  function LargeAssetWarnings(port: Port, assets: seq<AssetReference>): seq<string> {
    if assets == [] then []
    else
      var last := assets[|assets| - 1];
      LargeAssetWarnings(port, assets[..|assets| - 1])
        + (if IsLargeInline(port, last) then [LargeAssetWarning(last.path)] else [])
  }

  // ---------------------------------------------------------------------
  // The whole lint
  // ---------------------------------------------------------------------

  /** A string `description` that trims to nothing. */
  predicate BlankDescription(port: Port, payload: map<string, Json>) {
    match Get(payload, "description")
    case Some(Str(description)) => Blank(port, description)
    case _ => false
  }

  /** An object `meta` whose timestamps are out of order. */
  predicate MetaTimesOutOfOrder(port: Port, card: Json) {
    match Member(card, "meta")
    case Some(Obj(meta)) => CreatedAfterUpdated(port, meta)
    case _ => false
  }

  /** `[warning]` when `condition` holds, nothing otherwise. */
  function WarnIf(condition: bool, warning: string): (r: seq<string>)
    ensures warning in r <==> condition
    ensures |r| <= 1 && forall w :: w in r ==> w == warning
  {
    if condition then [warning] else []
  }

  /** The warnings of an object payload, before the asset walk. */
  function PayloadWarnings(port: Port, card: Json, payload: map<string, Json>): seq<string> {
    WarnIf(BlankDescription(port, payload), BlankDescriptionWarning)
    + WarnIf(CreatedAfterUpdated(port, payload), PayloadTimesWarning)
    + WarnIf(MetaTimesOutOfOrder(port, card), MetaTimesWarning)
    + WarnIf(UnknownSelectedVariant(card, payload), UnknownVariantWarning)
  }

  /** Every warning `lint_uec` gives for `card`, in order. */
  function LintWarnings(port: Port, card: Json): seq<string> {
    match Member(card, "payload")
    case Some(Obj(payload)) =>
      PayloadWarnings(port, card, payload) + LargeAssetWarnings(port, ExtractedAssets(card, ""))
    case _ => [ShapeWarning]
  }

  /** The checks on the payload, one warning pushed at a time. */
  method CheckPayload(port: Port, card: Json, payload: map<string, Json>) returns (warnings: seq<string>)
    ensures warnings == PayloadWarnings(port, card, payload)
  {
    warnings := [];
    if BlankDescription(port, payload) {
      warnings := warnings + [BlankDescriptionWarning];
    }
    assert warnings == WarnIf(BlankDescription(port, payload), BlankDescriptionWarning);
    ghost var checked := warnings;
    if CreatedAfterUpdated(port, payload) {
      warnings := warnings + [PayloadTimesWarning];
    }
    assert warnings == checked + WarnIf(CreatedAfterUpdated(port, payload), PayloadTimesWarning);
    checked := warnings;
    if MetaTimesOutOfOrder(port, card) {
      warnings := warnings + [MetaTimesWarning];
    }
    assert warnings == checked + WarnIf(MetaTimesOutOfOrder(port, card), MetaTimesWarning);
    checked := warnings;
    if UnknownSelectedVariant(card, payload) {
      warnings := warnings + [UnknownVariantWarning];
    }
    assert warnings == checked + WarnIf(UnknownSelectedVariant(card, payload), UnknownVariantWarning);
  }

  /** The asset pass: one warning per large inline asset, appended to `warnings`. */
  method CheckAssets(port: Port, assets: seq<AssetReference>, warnings: seq<string>) returns (res: seq<string>)
    ensures res == warnings + LargeAssetWarnings(port, assets)
  {
    res := warnings;
    for i := 0 to |assets|
      invariant res == warnings + LargeAssetWarnings(port, assets[..i])
    {
      assert assets[..i + 1][..i] == assets[..i];
      if IsLargeInline(port, assets[i]) {
        res := res + [LargeAssetWarning(assets[i].path)];
      }
    }
    assert assets[..|assets|] == assets;
  }

  /** `lint_uec`. */
  method LintUec(port: Port, card: Json) returns (r: LintResult)
    ensures r.warnings == LintWarnings(port, card)
    ensures r.ok <==> r.warnings == []
  {
    var payload := Member(card, "payload");
    if !(payload.Some? && payload.value.Obj?) {
      return LintResult(false, [ShapeWarning]);
    }
    var warnings := CheckPayload(port, card, payload.value.fields);
    var assets := ExtractAssets(card);
    warnings := CheckAssets(port, assets, warnings);
    r := LintResult(warnings == [], warnings);
  }

  // ---------------------------------------------------------------------
  // Properties
  // ---------------------------------------------------------------------

  /** The large-asset warnings are exactly those of the large inline assets. */
  lemma {:induction false} LargeAssetWarningsExactly(port: Port, assets: seq<AssetReference>, w: string)
    ensures w in LargeAssetWarnings(port, assets) <==>
      exists a :: a in assets && IsLargeInline(port, a) && w == LargeAssetWarning(a.path)
    decreases |assets|
  {
    if assets != [] {
      var init := assets[..|assets| - 1];
      assert assets == init + [assets[|assets| - 1]];
      LargeAssetWarningsExactly(port, init, w);
      if w in LargeAssetWarnings(port, init) {
        var a :| a in init && IsLargeInline(port, a) && w == LargeAssetWarning(a.path);
        assert a in assets;
      }
    }
  }

  /** Every large-asset warning is longer than the shape warning. */
  lemma {:induction false} LargeAssetWarningsLong(port: Port, assets: seq<AssetReference>)
    ensures forall w :: w in LargeAssetWarnings(port, assets) ==> |w| > |ShapeWarning|
    decreases |assets|
  {
    if assets != [] {
      LargeAssetWarningsLong(port, assets[..|assets| - 1]);
    }
  }

  /** The payload checks give only their own four warnings. */
  lemma PayloadWarningsKnown(port: Port, card: Json, payload: map<string, Json>)
    ensures forall w :: w in PayloadWarnings(port, card, payload) ==>
      w == BlankDescriptionWarning || w == PayloadTimesWarning || w == MetaTimesWarning || w == UnknownVariantWarning
  {
  }

  /** A card without an object payload gets the shape warning and nothing else. */
  lemma ShapeWarningAlone(port: Port, card: Json)
    requires !(Member(card, "payload").Some? && Member(card, "payload").value.Obj?)
    ensures LintWarnings(port, card) == [ShapeWarning]
  {
  }

  /** A card with an object payload never gets the shape warning. */
  lemma ShapeWarningOnlyForShape(port: Port, card: Json)
    requires Member(card, "payload").Some? && Member(card, "payload").value.Obj?
    ensures ShapeWarning !in LintWarnings(port, card)
  {
    var payload := Member(card, "payload").value.fields;
    var assets := ExtractedAssets(card, "");
    assert LintWarnings(port, card) == PayloadWarnings(port, card, payload) + LargeAssetWarnings(port, assets);
    PayloadWarningsKnown(port, card, payload);
    LargeAssetWarningsLong(port, assets);
    ShapeWarningDistinct();
  }

  lemma ShapeWarningDistinct()
    ensures ShapeWarning != BlankDescriptionWarning && ShapeWarning != PayloadTimesWarning
    ensures ShapeWarning != MetaTimesWarning && ShapeWarning != UnknownVariantWarning
  {
    assert |ShapeWarning| == 34;
    assert |BlankDescriptionWarning| == 38;
    assert |PayloadTimesWarning| == 51;
    assert |MetaTimesWarning| == 45;
    assert |UnknownVariantWarning| == 59;
  }

  /** White space in Rust is white space in Python: a description Rust calls blank Python does too. */
  lemma BlankPorts(s: string)
    ensures Blank(Rust, s) ==> Blank(Python, s)
  {
  }

  /** An information separator is blank to Python only. */
  lemma SeparatorIsBlankInPythonOnly()
    ensures Blank(Python, "\U{1C}") && !Blank(Rust, "\U{1C}")
  {
    assert "\U{1C}"[0] == '\U{1C}';
  }

  /** Rust measures UTF-8 bytes, never fewer than code points: an asset Python reports large Rust reports too. */
  lemma LargeInlinePorts(a: AssetReference)
    ensures IsLargeInline(Python, a) ==> IsLargeInline(Rust, a)
  {
  }

  /** On ASCII data the two measures agree. */
  lemma {:induction false} AsciiLength(s: string)
    requires forall i :: 0 <= i < |s| ==> s[i] < '\U{80}'
    ensures Utf8Length(s) == |s|
    decreases |s|
  {
    if s != [] {
      AsciiLength(s[..|s| - 1]);
    }
  }

  /** Timestamps inside the 64-bit range are compared alike on both ports. */
  lemma TimestampPorts(m: map<string, Json>)
    requires forall k :: k in m && m[k].Num? ==> I64Min <= m[k].n <= I64Max
    ensures CreatedAfterUpdated(Rust, m) <==> CreatedAfterUpdated(Python, m)
  {
  }
}

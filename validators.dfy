/**
 * The UEC validator (rust/src/validators.rs, python/uec/validators.py).
 *
 * Every validator appends `"<path>: <message>"` entries to an error list
 * and never fails. Each one is a method that threads the list through and
 * is proved to append exactly the entries of a ghost specification
 * function (`...Errors`), which states the rules declaratively, as a
 * concatenation of one `Check` per rule in the order the code runs them.
 * One method serves both ports: `Field(port, ..)` is the port's lookup.
 *
 * Inside a method the entries of one object are gathered in a local list
 * `found`, which is then appended to the caller's list in one step.
 */
module Validators {
  import opened JsonModel
  import opened Utils

  datatype ValidationResult = ValidationResult(ok: bool, errors: seq<string>)

  /** Present and not `null`: Rust `Some(v) if !v.is_null()`, Python `is not None`. */
  predicate PresentNonNull(o: Option<Json>) { o.Some? && o.value != Null }

  function Last<T>(s: seq<T>): T
    requires s != []
  {
    s[|s| - 1]
  }

  const StrictRequired: string := "is required in strict mode"

  // =====================================================================
  // Asset locators
  // =====================================================================

  /** The one string field each locator type requires. */
  function RequiredLocatorField(valueType: string): string
    requires IsAssetType(valueType)
  {
    if valueType == "inline_base64" then "data"
    else if valueType == "remote_url" then "url"
    else "assetId"
  }

  ghost function AssetLocatorErrors(port: Port, value: Option<Json>, path: string): seq<string> {
    if value.None? || value.value == Null || value.value.Str? then []
    else if !value.value.Obj? then [ErrorEntry(path, "must be a string, object, or null")]
    else
      var m := value.value.fields;
      var valueType := AsString(Field(port, m, "type"));
      if !(valueType.Some? && IsAssetType(valueType.value)) then
        [ErrorEntry(path + ".type", "must be one of: inline_base64, remote_url, asset_ref")]
      else
        var required := RequiredLocatorField(valueType.value);
        Check(OptionalString(Field(port, m, "mimeType")), path + ".mimeType", "must be a string if provided")
        + Check(SomeString(Field(port, m, required)), path + "." + required, "is required for " + valueType.value)
  }

  method ValidateAssetLocator(port: Port, value: Option<Json>, path: string, errors: seq<string>)
    returns (errs: seq<string>)
    ensures errs == errors + AssetLocatorErrors(port, value, path)
  {
    errs := errors;
    if value.None? {
      return;
    }
    if value.value == Null || value.value.Str? {
      return;
    }
    if !value.value.Obj? {
      errs := PushError(errs, path, "must be a string, object, or null");
      return;
    }
    var m := value.value.fields;
    var valueType := AsString(Field(port, m, "type"));
    if !(valueType.Some? && IsAssetType(valueType.value)) {
      errs := PushError(errs, path + ".type", "must be one of: inline_base64, remote_url, asset_ref");
      return;
    }
    var found := CheckOptionalString([], Field(port, m, "mimeType"), path + ".mimeType", "must be a string if provided");
    EmptyAppend(Check(OptionalString(Field(port, m, "mimeType")), path + ".mimeType", "must be a string if provided"));
    var required := RequiredLocatorField(valueType.value);
    found := CheckSomeString(found, Field(port, m, required), path + "." + required, "is required for " + valueType.value);
    errs := errs + found;
  }

  // =====================================================================
  // Character book
  // =====================================================================

  const BookPath: string := "payload.characterBook"
  const EntriesPath: string := "payload.characterBook.entries"

  ghost function BookEntryErrors(port: Port, entry: Json, path: string): seq<string> {
    if !entry.Obj? then [ErrorEntry(path, "must be an object")]
    else
      var m := entry.fields;
      Check(OptionalString(Field(port, m, "name")), path + ".name", "must be a string or null")
      + Check(OptionalStringArray(Field(port, m, "keys")), path + ".keys", "must be an array of strings")
      + Check(OptionalStringArray(Field(port, m, "secondary_keys")), path + ".secondary_keys", "must be an array of strings")
      + Check(SomeString(Field(port, m, "content")), path + ".content", "must be a string")
      + Check(OptionalBoolean(Field(port, m, "enabled")), path + ".enabled", "must be a boolean")
      + Check(OptionalNumber(Field(port, m, "insertion_order")), path + ".insertion_order", "must be a number")
      + Check(OptionalBoolean(Field(port, m, "case_sensitive")), path + ".case_sensitive", "must be a boolean")
      + Check(OptionalNumber(Field(port, m, "priority")), path + ".priority", "must be a number")
      + Check(OptionalBoolean(Field(port, m, "constant")), path + ".constant", "must be a boolean")
  }

  /** The entries' errors, each entry reported under its index. */
  ghost function BookEntriesErrors(port: Port, entries: seq<Json>): seq<string>
    decreases |entries|
  {
    if entries == [] then []
    else
      BookEntriesErrors(port, entries[..|entries| - 1])
      + BookEntryErrors(port, Last(entries), IndexPath(EntriesPath, |entries| - 1))
  }

  ghost function CharacterBookErrors(port: Port, book: Option<Json>): seq<string> {
    if book.None? || book.value == Null then []
    else if !book.value.Obj? then [ErrorEntry(BookPath, "must be an object")]
    else
      var m := book.value.fields;
      Check(OptionalString(Field(port, m, "name")), BookPath + ".name", "must be a string or null")
      + Check(OptionalString(Field(port, m, "description")), BookPath + ".description", "must be a string or null")
      + match Field(port, m, "entries")
        case None => []
        case Some(entries) =>
          if entries.Arr? then BookEntriesErrors(port, entries.items)
          else [ErrorEntry(EntriesPath, "must be an array")]
  }

  lemma BookEntriesStep(port: Port, entries: seq<Json>, index: nat)
    requires index < |entries|
    ensures BookEntriesErrors(port, entries[..index + 1])
      == BookEntriesErrors(port, entries[..index]) + BookEntryErrors(port, entries[index], IndexPath(EntriesPath, index))
  {
    assert entries[..index + 1][..index] == entries[..index];
  }

  /** The body of the entry loop of `validate_character_book`. */
  method ValidateBookEntry(port: Port, entry: Json, path: string, errors: seq<string>) returns (errs: seq<string>)
    ensures errs == errors + BookEntryErrors(port, entry, path)
  {
    errs := errors;
    if !entry.Obj? {
      errs := PushError(errs, path, "must be an object");
      return;
    }
    var m := entry.fields;
    var found := CheckOptionalString([], Field(port, m, "name"), path + ".name", "must be a string or null");
    EmptyAppend(Check(OptionalString(Field(port, m, "name")), path + ".name", "must be a string or null"));
    found := CheckOptionalStringArray(found, Field(port, m, "keys"), path + ".keys", "must be an array of strings");
    found := CheckOptionalStringArray(found, Field(port, m, "secondary_keys"), path + ".secondary_keys", "must be an array of strings");
    found := CheckSomeString(found, Field(port, m, "content"), path + ".content", "must be a string");
    found := CheckOptionalBoolean(found, Field(port, m, "enabled"), path + ".enabled", "must be a boolean");
    found := CheckOptionalNumber(found, Field(port, m, "insertion_order"), path + ".insertion_order", "must be a number");
    found := CheckOptionalBoolean(found, Field(port, m, "case_sensitive"), path + ".case_sensitive", "must be a boolean");
    found := CheckOptionalNumber(found, Field(port, m, "priority"), path + ".priority", "must be a number");
    found := CheckOptionalBoolean(found, Field(port, m, "constant"), path + ".constant", "must be a boolean");
    errs := errs + found;
  }

  method ValidateCharacterBook(port: Port, book: Option<Json>, errors: seq<string>) returns (errs: seq<string>)
    ensures errs == errors + CharacterBookErrors(port, book)
  {
    errs := errors;
    if book.None? {
      return;
    }
    if book.value == Null {
      return;
    }
    if !book.value.Obj? {
      errs := PushError(errs, BookPath, "must be an object");
      return;
    }
    var bookMap := book.value.fields;
    var found := CheckOptionalString([], Field(port, bookMap, "name"), BookPath + ".name", "must be a string or null");
    EmptyAppend(Check(OptionalString(Field(port, bookMap, "name")), BookPath + ".name", "must be a string or null"));
    found := CheckOptionalString(found, Field(port, bookMap, "description"), BookPath + ".description", "must be a string or null");
    var entriesField := Field(port, bookMap, "entries");
    if entriesField.None? {
      errs := errs + (found + []);
      return;
    }
    if !entriesField.value.Arr? {
      found := PushError(found, EntriesPath, "must be an array");
      errs := errs + found;
      return;
    }
    var entries := entriesField.value.items;
    var listed: seq<string> := [];
    for index := 0 to |entries|
      invariant listed == BookEntriesErrors(port, entries[..index])
    {
      BookEntriesStep(port, entries, index);
      listed := ValidateBookEntry(port, entries[index], IndexPath(EntriesPath, index), listed);
    }
    assert entries[..|entries|] == entries;
    errs := errs + (found + listed);
  }

  // =====================================================================
  // Scenes and variants
  // =====================================================================

  ghost function VariantErrors(port: Port, variant: Json, path: string): seq<string> {
    if !variant.Obj? then [ErrorEntry(path, "must be an object")]
    else
      var m := variant.fields;
      Check(SomeString(Field(port, m, "id")), path + ".id", "must be a string")
      + Check(SomeString(Field(port, m, "content")), path + ".content", "must be a string")
      + Check(SomeNumber(Field(port, m, "createdAt")), path + ".createdAt", "must be a number")
  }

  method ValidateVariant(port: Port, variant: Json, path: string, errors: seq<string>) returns (errs: seq<string>)
    ensures errs == errors + VariantErrors(port, variant, path)
  {
    errs := errors;
    if !variant.Obj? {
      errs := PushError(errs, path, "must be an object");
      return;
    }
    var m := variant.fields;
    var found := CheckSomeString([], Field(port, m, "id"), path + ".id", "must be a string");
    EmptyAppend(Check(SomeString(Field(port, m, "id")), path + ".id", "must be a string"));
    found := CheckSomeString(found, Field(port, m, "content"), path + ".content", "must be a string");
    found := CheckSomeNumber(found, Field(port, m, "createdAt"), path + ".createdAt", "must be a number");
    errs := errs + found;
  }

  ghost function VariantListErrors(port: Port, variants: seq<Json>, path: string): seq<string>
    decreases |variants|
  {
    if variants == [] then []
    else
      VariantListErrors(port, variants[..|variants| - 1], path)
      + VariantErrors(port, Last(variants), IndexPath(path + ".variants", |variants| - 1))
  }

  ghost function VariantsFieldErrors(port: Port, variants: Option<Json>, path: string): seq<string> {
    match variants
    case None => []
    case Some(v) =>
      if v.Arr? then VariantListErrors(port, v.items, path)
      else [ErrorEntry(path + ".variants", "must be an array")]
  }

  lemma VariantListStep(port: Port, variants: seq<Json>, path: string, index: nat)
    requires index < |variants|
    ensures VariantListErrors(port, variants[..index + 1], path)
      == VariantListErrors(port, variants[..index], path) + VariantErrors(port, variants[index], IndexPath(path + ".variants", index))
  {
    assert variants[..index + 1][..index] == variants[..index];
  }

  /** The `variants` block of `validate_scene_base`. */
  method ValidateVariants(port: Port, variants: Option<Json>, path: string, errors: seq<string>) returns (errs: seq<string>)
    ensures errs == errors + VariantsFieldErrors(port, variants, path)
  {
    errs := errors;
    if variants.None? {
      return;
    }
    if !variants.value.Arr? {
      errs := PushError(errs, path + ".variants", "must be an array");
      return;
    }
    var items := variants.value.items;
    var listed: seq<string> := [];
    for index := 0 to |items|
      invariant listed == VariantListErrors(port, items[..index], path)
    {
      VariantListStep(port, items, path, index);
      listed := ValidateVariant(port, items[index], IndexPath(path + ".variants", index), listed);
    }
    assert items[..|items|] == items;
    errs := errs + listed;
  }

  /** The checks shared by v1 and v2 scenes. */
  ghost function SceneBaseErrors(port: Port, scene: Json, path: string, strict: bool): seq<string> {
    if !scene.Obj? then [ErrorEntry(path, "must be an object")]
    else
      var m := scene.fields;
      Check(SomeString(Field(port, m, "id")), path + ".id", "must be a string")
      + Check(SomeString(Field(port, m, "content")), path + ".content", "must be a string")
      + Check(OptionalString(Field(port, m, "direction")), path + ".direction", "must be a string")
      + Check(OptionalNumber(Field(port, m, "createdAt")), path + ".createdAt", "must be a number")
      + VariantsFieldErrors(port, Field(port, m, "variants"), path)
      + SceneStrictErrors(port, m, path, strict)
  }

  ghost function SceneStrictErrors(port: Port, m: map<string, Json>, path: string, strict: bool): seq<string> {
    if strict then
      Check(SomeString(Field(port, m, "id")), path + ".id", "is required")
      + Check(SomeString(Field(port, m, "content")), path + ".content", "is required")
    else []
  }

  method ValidateSceneBase(port: Port, scene: Json, path: string, errors: seq<string>, strict: bool)
    returns (errs: seq<string>, isObject: bool)
    ensures errs == errors + SceneBaseErrors(port, scene, path, strict)
    ensures isObject <==> scene.Obj?
  {
    errs := errors;
    if !scene.Obj? {
      errs := PushError(errs, path, "must be an object");
      return errs, false;
    }
    var m := scene.fields;
    var found := CheckSomeString([], Field(port, m, "id"), path + ".id", "must be a string");
    EmptyAppend(Check(SomeString(Field(port, m, "id")), path + ".id", "must be a string"));
    found := CheckSomeString(found, Field(port, m, "content"), path + ".content", "must be a string");
    found := CheckOptionalString(found, Field(port, m, "direction"), path + ".direction", "must be a string");
    found := CheckOptionalNumber(found, Field(port, m, "createdAt"), path + ".createdAt", "must be a number");
    found := ValidateVariants(port, Field(port, m, "variants"), path, found);
    var strictFound: seq<string> := [];
    if strict {
      strictFound := CheckSomeString(strictFound, Field(port, m, "id"), path + ".id", "is required");
      EmptyAppend(Check(SomeString(Field(port, m, "id")), path + ".id", "is required"));
      strictFound := CheckSomeString(strictFound, Field(port, m, "content"), path + ".content", "is required");
    }
    assert strictFound == SceneStrictErrors(port, m, path, strict);
    errs := errs + (found + strictFound);
    isObject := true;
  }

  /** A v1 scene: the shared checks, then `selectedVariantId` (string or null). */
  ghost function SceneV1Errors(port: Port, scene: Json, path: string, strict: bool): seq<string> {
    SceneBaseErrors(port, scene, path, strict)
    + if scene.Obj? then
        Check(OptionalString(Field(port, scene.fields, "selectedVariantId")), path + ".selectedVariantId", "must be a string or null")
      else []
  }

  method ValidateScene(port: Port, scene: Json, path: string, errors: seq<string>, strict: bool)
    returns (errs: seq<string>)
    ensures errs == errors + SceneV1Errors(port, scene, path, strict)
  {
    var base, isObject := ValidateSceneBase(port, scene, path, [], strict);
    EmptyAppend(SceneBaseErrors(port, scene, path, strict));
    if !isObject {
      errs := errors + (base + []);
      return;
    }
    var found := CheckOptionalString(base, Field(port, scene.fields, "selectedVariantId"), path + ".selectedVariantId", "must be a string or null");
    errs := errors + found;
  }

  /**
   * The zero that marks "no variant selected": the integer 0 in Rust; in
   * Python anything equal to 0, which includes `False`.
   */
  predicate IsZeroSelection(port: Port, v: Json) {
    v == Num(0) || (port == Python && v == Bool(false))
  }

  predicate SelectedVariantOk(port: Port, selected: Option<Json>) {
    selected.None? || IsZeroSelection(port, selected.value) || selected.value.Str?
  }

  /** The `selectedVariant` rule of a v2 scene. */
  method CheckSelectedVariant(port: Port, errors: seq<string>, selected: Option<Json>, path: string)
    returns (errs: seq<string>)
    ensures errs == errors + Check(SelectedVariantOk(port, selected), path + ".selectedVariant", "must be 0 or a variant ID string")
  {
    errs := errors;
    if selected.Some? && !(IsZeroSelection(port, selected.value) || selected.value.Str?) {
      errs := PushError(errs, path + ".selectedVariant", "must be 0 or a variant ID string");
    }
  }

  /** A v2 scene: the shared checks, then `selectedVariant` (0 or a string). */
  ghost function SceneV2Errors(port: Port, scene: Json, path: string, strict: bool): seq<string> {
    SceneBaseErrors(port, scene, path, strict)
    + if scene.Obj? then
        Check(SelectedVariantOk(port, Field(port, scene.fields, "selectedVariant")), path + ".selectedVariant", "must be 0 or a variant ID string")
      else []
  }

  method ValidateSceneV2(port: Port, scene: Json, path: string, errors: seq<string>, strict: bool)
    returns (errs: seq<string>)
    ensures errs == errors + SceneV2Errors(port, scene, path, strict)
  {
    var base, isObject := ValidateSceneBase(port, scene, path, [], strict);
    EmptyAppend(SceneBaseErrors(port, scene, path, strict));
    if !isObject {
      errs := errors + (base + []);
      return;
    }
    var found := CheckSelectedVariant(port, base, Field(port, scene.fields, "selectedVariant"), path);
    errs := errors + found;
  }

  const ScenesPath: string := "payload.scenes"

  ghost function SceneListErrors(port: Port, scenes: seq<Json>, strict: bool): seq<string>
    decreases |scenes|
  {
    if scenes == [] then []
    else
      SceneListErrors(port, scenes[..|scenes| - 1], strict)
      + SceneV1Errors(port, Last(scenes), IndexPath(ScenesPath, |scenes| - 1), strict)
  }

  ghost function ScenesFieldErrors(port: Port, scenes: Option<Json>, strict: bool): seq<string> {
    match scenes
    case None => []
    case Some(v) =>
      if v.Arr? then SceneListErrors(port, v.items, strict)
      else [ErrorEntry(ScenesPath, "must be an array")]
  }

  lemma SceneListStep(port: Port, scenes: seq<Json>, index: nat, strict: bool)
    requires index < |scenes|
    ensures SceneListErrors(port, scenes[..index + 1], strict)
      == SceneListErrors(port, scenes[..index], strict) + SceneV1Errors(port, scenes[index], IndexPath(ScenesPath, index), strict)
  {
    assert scenes[..index + 1][..index] == scenes[..index];
  }

  /** The `scenes` block of the v1 character validator. */
  method ValidateScenes(port: Port, scenes: Option<Json>, errors: seq<string>, strict: bool) returns (errs: seq<string>)
    ensures errs == errors + ScenesFieldErrors(port, scenes, strict)
  {
    errs := errors;
    if scenes.None? {
      return;
    }
    if !scenes.value.Arr? {
      errs := PushError(errs, ScenesPath, "must be an array");
      return;
    }
    var items := scenes.value.items;
    var listed: seq<string> := [];
    for index := 0 to |items|
      invariant listed == SceneListErrors(port, items[..index], strict)
    {
      SceneListStep(port, items, index, strict);
      listed := ValidateScene(port, items[index], IndexPath(ScenesPath, index), listed, strict);
    }
    assert items[..|items|] == items;
    errs := errs + listed;
  }

  // =====================================================================
  // Voice configuration
  // =====================================================================

  const VoicePath: string := "payload.voiceConfig"

  ghost function VoiceConfigV1Errors(port: Port, voiceConfig: Option<Json>): seq<string> {
    if voiceConfig.None? then []
    else if !voiceConfig.value.Obj? then [ErrorEntry(VoicePath, "must be an object")]
    else
      var m := voiceConfig.value.fields;
      Check(SomeString(Field(port, m, "source")), VoicePath + ".source", "must be a string")
      + Check(SomeString(Field(port, m, "providerId")), VoicePath + ".providerId", "must be a string")
      + Check(SomeString(Field(port, m, "voiceId")), VoicePath + ".voiceId", "must be a string")
  }

  method ValidateVoiceConfigV1(port: Port, voiceConfig: Option<Json>, errors: seq<string>) returns (errs: seq<string>)
    ensures errs == errors + VoiceConfigV1Errors(port, voiceConfig)
  {
    errs := errors;
    if voiceConfig.None? {
      return;
    }
    if !voiceConfig.value.Obj? {
      errs := PushError(errs, VoicePath, "must be an object");
      return;
    }
    var m := voiceConfig.value.fields;
    var found := CheckSomeString([], Field(port, m, "source"), VoicePath + ".source", "must be a string");
    EmptyAppend(Check(SomeString(Field(port, m, "source")), VoicePath + ".source", "must be a string"));
    found := CheckSomeString(found, Field(port, m, "providerId"), VoicePath + ".providerId", "must be a string");
    found := CheckSomeString(found, Field(port, m, "voiceId"), VoicePath + ".voiceId", "must be a string");
    errs := errs + found;
  }

  ghost function VoiceConfigV2Errors(port: Port, voiceConfig: Option<Json>): seq<string> {
    if voiceConfig.None? then []
    else if !voiceConfig.value.Obj? then [ErrorEntry(VoicePath, "must be an object")]
    else
      var m := voiceConfig.value.fields;
      Check(SomeString(Field(port, m, "source")), VoicePath + ".source", "must be a string")
      + Check(OptionalString(Field(port, m, "providerId")), VoicePath + ".providerId", "must be a string if provided")
      + Check(OptionalString(Field(port, m, "voiceId")), VoicePath + ".voiceId", "must be a string if provided")
      + Check(OptionalString(Field(port, m, "userVoiceId")), VoicePath + ".userVoiceId", "must be a string if provided")
      + Check(OptionalString(Field(port, m, "modelId")), VoicePath + ".modelId", "must be a string if provided")
      + Check(OptionalString(Field(port, m, "voiceName")), VoicePath + ".voiceName", "must be a string if provided")
  }

  method ValidateVoiceConfigV2(port: Port, voiceConfig: Option<Json>, errors: seq<string>) returns (errs: seq<string>)
    ensures errs == errors + VoiceConfigV2Errors(port, voiceConfig)
  {
    errs := errors;
    if voiceConfig.None? {
      return;
    }
    if !voiceConfig.value.Obj? {
      errs := PushError(errs, VoicePath, "must be an object");
      return;
    }
    var m := voiceConfig.value.fields;
    var found := CheckSomeString([], Field(port, m, "source"), VoicePath + ".source", "must be a string");
    EmptyAppend(Check(SomeString(Field(port, m, "source")), VoicePath + ".source", "must be a string"));
    found := CheckOptionalString(found, Field(port, m, "providerId"), VoicePath + ".providerId", "must be a string if provided");
    found := CheckOptionalString(found, Field(port, m, "voiceId"), VoicePath + ".voiceId", "must be a string if provided");
    found := CheckOptionalString(found, Field(port, m, "userVoiceId"), VoicePath + ".userVoiceId", "must be a string if provided");
    found := CheckOptionalString(found, Field(port, m, "modelId"), VoicePath + ".modelId", "must be a string if provided");
    found := CheckOptionalString(found, Field(port, m, "voiceName"), VoicePath + ".voiceName", "must be a string if provided");
    errs := errs + found;
  }

  // =====================================================================
  // Schema header, settings, meta
  // =====================================================================

  function UnknownVersionMessage(version: string): string {
    "unknown version \"" + version + "\""
  }

  ghost function SchemaNameErrors(name: Option<Json>): seq<string> {
    if !SomeString(name) then [ErrorEntry("schema.name", "must be a string")]
    else if name.value.s != SchemaName then [ErrorEntry("schema.name", "must be \"UEC\"")]
    else []
  }

  ghost function SchemaVersionErrors(version: Option<Json>): seq<string> {
    if !SomeString(version) then [ErrorEntry("schema.version", "must be a string")]
    else if !KnownVersion(version.value.s) then [ErrorEntry("schema.version", UnknownVersionMessage(version.value.s))]
    else []
  }

  ghost function SchemaErrors(port: Port, schema: Option<Json>): seq<string> {
    if !SomeObject(schema) then [ErrorEntry("schema", "must be an object")]
    else
      var m := schema.value.fields;
      SchemaNameErrors(Field(port, m, "name"))
      + SchemaVersionErrors(Field(port, m, "version"))
      + Check(AbsentOrString(Field(port, m, "compat")), "schema.compat", "must be a string if provided")
  }

  /** The version string the schema check hands back to its caller. */
  function DetectedVersion(port: Port, schema: Option<Json>): (r: Option<string>)
    ensures r.Some? <==> SomeObject(schema) && SomeString(Field(port, schema.value.fields, "version"))
    ensures r.Some? ==> Field(port, schema.value.fields, "version") == Some(Str(r.value))
  {
    if SomeObject(schema) then AsString(Field(port, schema.value.fields, "version")) else None
  }

  method ValidateSchema(port: Port, schema: Option<Json>, errors: seq<string>)
    returns (errs: seq<string>, version: Option<string>)
    ensures errs == errors + SchemaErrors(port, schema)
    ensures version == DetectedVersion(port, schema)
  {
    errs := errors;
    if schema.None? {
      errs := PushError(errs, "schema", "must be an object");
      return errs, None;
    }
    if !schema.value.Obj? {
      errs := PushError(errs, "schema", "must be an object");
      return errs, None;
    }
    var m := schema.value.fields;
    var name := Field(port, m, "name");
    var nameFound: seq<string> := [];
    if !SomeString(name) {
      nameFound := PushError(nameFound, "schema.name", "must be a string");
    } else if name.value.s != SchemaName {
      nameFound := PushError(nameFound, "schema.name", "must be \"UEC\"");
    }
    assert nameFound == SchemaNameErrors(name);
    var versionField := Field(port, m, "version");
    var versionFound: seq<string> := [];
    if !SomeString(versionField) {
      versionFound := PushError(versionFound, "schema.version", "must be a string");
    } else if !KnownVersion(versionField.value.s) {
      versionFound := PushError(versionFound, "schema.version", UnknownVersionMessage(versionField.value.s));
    }
    assert versionFound == SchemaVersionErrors(versionField);
    var found := CheckAbsentOrString(nameFound + versionFound, Field(port, m, "compat"), "schema.compat", "must be a string if provided");
    errs := errs + found;
    version := AsString(versionField);
  }

  ghost function SettingsErrors(settings: Option<Json>): seq<string> {
    Check(OptionalObject(settings), "app_specific_settings", "must be an object")
  }

  method ValidateAppSpecificSettings(settings: Option<Json>, errors: seq<string>) returns (errs: seq<string>)
    ensures errs == errors + SettingsErrors(settings)
  {
    errs := CheckOptionalObject(errors, settings, "app_specific_settings", "must be an object");
  }

  ghost function MetaErrors(port: Port, meta: Option<Json>): seq<string> {
    if meta.None? then []
    else if !meta.value.Obj? then [ErrorEntry("meta", "must be an object")]
    else
      var m := meta.value.fields;
      Check(OptionalNumber(Field(port, m, "createdAt")), "meta.createdAt", "must be a number")
      + Check(OptionalNumber(Field(port, m, "updatedAt")), "meta.updatedAt", "must be a number")
      + Check(OptionalString(Field(port, m, "source")), "meta.source", "must be a string")
      + Check(OptionalStringArray(Field(port, m, "authors")), "meta.authors", "must be an array of strings")
      + Check(OptionalString(Field(port, m, "license")), "meta.license", "must be a string")
  }

  method ValidateMeta(port: Port, meta: Option<Json>, errors: seq<string>) returns (errs: seq<string>)
    ensures errs == errors + MetaErrors(port, meta)
  {
    errs := errors;
    if meta.None? {
      return;
    }
    if !meta.value.Obj? {
      errs := PushError(errs, "meta", "must be an object");
      return;
    }
    var m := meta.value.fields;
    var found := CheckOptionalNumber([], Field(port, m, "createdAt"), "meta.createdAt", "must be a number");
    EmptyAppend(Check(OptionalNumber(Field(port, m, "createdAt")), "meta.createdAt", "must be a number"));
    found := CheckOptionalNumber(found, Field(port, m, "updatedAt"), "meta.updatedAt", "must be a number");
    found := CheckOptionalString(found, Field(port, m, "source"), "meta.source", "must be a string");
    found := CheckOptionalStringArray(found, Field(port, m, "authors"), "meta.authors", "must be an array of strings");
    found := CheckOptionalString(found, Field(port, m, "license"), "meta.license", "must be a string");
    errs := errs + found;
  }

  /** The v2 additions to the meta check: the provenance fields. */
  ghost function MetaV2OriginalErrors(port: Port, meta: Option<Json>, strict: bool): seq<string> {
    if strict && !SomeObject(meta) then
      [ErrorEntry("meta.originalCreatedAt", StrictRequired), ErrorEntry("meta.originalUpdatedAt", StrictRequired)]
    else if !SomeObject(meta) then []
    else
      var m := meta.value.fields;
      Check(OptionalNumber(Field(port, m, "originalCreatedAt")), "meta.originalCreatedAt", "must be a number")
      + Check(OptionalNumber(Field(port, m, "originalUpdatedAt")), "meta.originalUpdatedAt", "must be a number")
      + Check(OptionalString(Field(port, m, "originalSource")), "meta.originalSource", "must be a string")
      + MetaV2StrictErrors(port, m, strict)
  }

  ghost function MetaV2StrictErrors(port: Port, m: map<string, Json>, strict: bool): seq<string> {
    if strict then
      Check(SomeNumber(Field(port, m, "originalCreatedAt")), "meta.originalCreatedAt", StrictRequired)
      + Check(SomeNumber(Field(port, m, "originalUpdatedAt")), "meta.originalUpdatedAt", StrictRequired)
    else []
  }

  ghost function MetaV2Errors(port: Port, meta: Option<Json>, strict: bool): seq<string> {
    MetaErrors(port, meta) + MetaV2OriginalErrors(port, meta, strict)
  }

  method ValidateMetaV2(port: Port, meta: Option<Json>, errors: seq<string>, strict: bool) returns (errs: seq<string>)
    ensures errs == errors + MetaV2Errors(port, meta, strict)
  {
    var base := ValidateMeta(port, meta, []);
    EmptyAppend(MetaErrors(port, meta));
    if strict && !SomeObject(meta) {
      var found := PushError(base, "meta.originalCreatedAt", StrictRequired);
      found := PushError(found, "meta.originalUpdatedAt", StrictRequired);
      errs := errors + found;
      return;
    }
    if !SomeObject(meta) {
      errs := errors + (base + []);
      return;
    }
    var m := meta.value.fields;
    var found := CheckOptionalNumber([], Field(port, m, "originalCreatedAt"), "meta.originalCreatedAt", "must be a number");
    EmptyAppend(Check(OptionalNumber(Field(port, m, "originalCreatedAt")), "meta.originalCreatedAt", "must be a number"));
    found := CheckOptionalNumber(found, Field(port, m, "originalUpdatedAt"), "meta.originalUpdatedAt", "must be a number");
    found := CheckOptionalString(found, Field(port, m, "originalSource"), "meta.originalSource", "must be a string");
    var strictFound: seq<string> := [];
    if strict {
      strictFound := CheckSomeNumber(strictFound, Field(port, m, "originalCreatedAt"), "meta.originalCreatedAt", StrictRequired);
      EmptyAppend(Check(SomeNumber(Field(port, m, "originalCreatedAt")), "meta.originalCreatedAt", StrictRequired));
      strictFound := CheckSomeNumber(strictFound, Field(port, m, "originalUpdatedAt"), "meta.originalUpdatedAt", StrictRequired);
    }
    assert strictFound == MetaV2StrictErrors(port, m, strict);
    errs := errors + (base + (found + strictFound));
  }

  // =====================================================================
  // Payloads
  // =====================================================================

  /** `id`, `name`, `description`, `definitions`, `tags`: first in both character validators. */
  ghost function CharacterIdentityErrors(port: Port, m: map<string, Json>): seq<string> {
    Check(SomeString(Field(port, m, "id")), "payload.id", "must be a string")
    + Check(SomeString(Field(port, m, "name")), "payload.name", "must be a string")
    + Check(OptionalString(Field(port, m, "description")), "payload.description", "must be a string")
    + Check(OptionalString(Field(port, m, "definitions")), "payload.definitions", "must be a string")
    + Check(OptionalStringArray(Field(port, m, "tags")), "payload.tags", "must be an array of strings")
  }

  method ValidateCharacterIdentity(port: Port, m: map<string, Json>, errors: seq<string>) returns (errs: seq<string>)
    ensures errs == errors + CharacterIdentityErrors(port, m)
  {
    var found := CheckSomeString([], Field(port, m, "id"), "payload.id", "must be a string");
    EmptyAppend(Check(SomeString(Field(port, m, "id")), "payload.id", "must be a string"));
    found := CheckSomeString(found, Field(port, m, "name"), "payload.name", "must be a string");
    found := CheckOptionalString(found, Field(port, m, "description"), "payload.description", "must be a string");
    found := CheckOptionalString(found, Field(port, m, "definitions"), "payload.definitions", "must be a string");
    found := CheckOptionalStringArray(found, Field(port, m, "tags"), "payload.tags", "must be an array of strings");
    errs := errors + found;
  }

  /** `id`, `title`, `description`: first in both persona validators. */
  ghost function PersonaIdentityErrors(port: Port, m: map<string, Json>): seq<string> {
    Check(SomeString(Field(port, m, "id")), "payload.id", "must be a string")
    + Check(SomeString(Field(port, m, "title")), "payload.title", "must be a string")
    + Check(OptionalString(Field(port, m, "description")), "payload.description", "must be a string")
  }

  method ValidatePersonaIdentity(port: Port, m: map<string, Json>, errors: seq<string>) returns (errs: seq<string>)
    ensures errs == errors + PersonaIdentityErrors(port, m)
  {
    var found := CheckSomeString([], Field(port, m, "id"), "payload.id", "must be a string");
    EmptyAppend(Check(SomeString(Field(port, m, "id")), "payload.id", "must be a string"));
    found := CheckSomeString(found, Field(port, m, "title"), "payload.title", "must be a string");
    found := CheckOptionalString(found, Field(port, m, "description"), "payload.description", "must be a string");
    errs := errors + found;
  }

  /** `createdAt` and `updatedAt`: last in every payload validator before its strict block. */
  ghost function TimestampErrors(port: Port, m: map<string, Json>): seq<string> {
    Check(OptionalNumber(Field(port, m, "createdAt")), "payload.createdAt", "must be a number")
    + Check(OptionalNumber(Field(port, m, "updatedAt")), "payload.updatedAt", "must be a number")
  }

  method ValidateTimestamps(port: Port, m: map<string, Json>, errors: seq<string>) returns (errs: seq<string>)
    ensures errs == errors + TimestampErrors(port, m)
  {
    var found := CheckOptionalNumber([], Field(port, m, "createdAt"), "payload.createdAt", "must be a number");
    EmptyAppend(Check(OptionalNumber(Field(port, m, "createdAt")), "payload.createdAt", "must be a number"));
    found := CheckOptionalNumber(found, Field(port, m, "updatedAt"), "payload.updatedAt", "must be a number");
    errs := errors + found;
  }

  /** The v1 character fields between the identity and the timestamps. */
  ghost function CharacterV1BodyErrors(port: Port, m: map<string, Json>, strict: bool): seq<string> {
    Check(OptionalString(Field(port, m, "avatar")), "payload.avatar", "must be a string or null")
    + Check(OptionalString(Field(port, m, "chatBackground")), "payload.chatBackground", "must be a string or null")
    + Check(OptionalStringArray(Field(port, m, "rules")), "payload.rules", "must be an array of strings")
    + ScenesFieldErrors(port, Field(port, m, "scenes"), strict)
    + Check(OptionalString(Field(port, m, "defaultSceneId")), "payload.defaultSceneId", "must be a string or null")
    + Check(OptionalString(Field(port, m, "defaultModelId")), "payload.defaultModelId", "must be a string or null")
    + Check(OptionalString(Field(port, m, "systemPrompt")), "payload.systemPrompt", "must be a string or null")
    + VoiceConfigV1Errors(port, Field(port, m, "voiceConfig"))
    + Check(OptionalBoolean(Field(port, m, "voiceAutoplay")), "payload.voiceAutoplay", "must be a boolean")
  }

  method ValidateCharacterV1Body(port: Port, m: map<string, Json>, errors: seq<string>, strict: bool)
    returns (errs: seq<string>)
    ensures errs == errors + CharacterV1BodyErrors(port, m, strict)
  {
    var found := CheckOptionalString([], Field(port, m, "avatar"), "payload.avatar", "must be a string or null");
    EmptyAppend(Check(OptionalString(Field(port, m, "avatar")), "payload.avatar", "must be a string or null"));
    found := CheckOptionalString(found, Field(port, m, "chatBackground"), "payload.chatBackground", "must be a string or null");
    found := CheckOptionalStringArray(found, Field(port, m, "rules"), "payload.rules", "must be an array of strings");
    found := ValidateScenes(port, Field(port, m, "scenes"), found, strict);
    found := CheckOptionalString(found, Field(port, m, "defaultSceneId"), "payload.defaultSceneId", "must be a string or null");
    found := CheckOptionalString(found, Field(port, m, "defaultModelId"), "payload.defaultModelId", "must be a string or null");
    found := CheckOptionalString(found, Field(port, m, "systemPrompt"), "payload.systemPrompt", "must be a string or null");
    found := ValidateVoiceConfigV1(port, Field(port, m, "voiceConfig"), found);
    found := CheckOptionalBoolean(found, Field(port, m, "voiceAutoplay"), "payload.voiceAutoplay", "must be a boolean");
    errs := errors + found;
  }

  ghost function CharacterV1StrictErrors(port: Port, m: map<string, Json>, strict: bool): seq<string> {
    if strict then
      Check(SomeString(Field(port, m, "description")), "payload.description", StrictRequired)
      + Check(SomeArray(Field(port, m, "rules")), "payload.rules", StrictRequired)
      + Check(SomeArray(Field(port, m, "scenes")), "payload.scenes", StrictRequired)
      + Check(SomeNumber(Field(port, m, "createdAt")), "payload.createdAt", StrictRequired)
      + Check(SomeNumber(Field(port, m, "updatedAt")), "payload.updatedAt", StrictRequired)
    else []
  }

  method ValidateCharacterV1Strict(port: Port, m: map<string, Json>, errors: seq<string>, strict: bool)
    returns (errs: seq<string>)
    ensures errs == errors + CharacterV1StrictErrors(port, m, strict)
  {
    errs := errors;
    if !strict {
      return;
    }
    var found := CheckSomeString([], Field(port, m, "description"), "payload.description", StrictRequired);
    EmptyAppend(Check(SomeString(Field(port, m, "description")), "payload.description", StrictRequired));
    found := CheckSomeArray(found, Field(port, m, "rules"), "payload.rules", StrictRequired);
    found := CheckSomeArray(found, Field(port, m, "scenes"), "payload.scenes", StrictRequired);
    found := CheckSomeNumber(found, Field(port, m, "createdAt"), "payload.createdAt", StrictRequired);
    found := CheckSomeNumber(found, Field(port, m, "updatedAt"), "payload.updatedAt", StrictRequired);
    errs := errs + found;
  }

  ghost function CharacterPayloadV1Errors(port: Port, payload: Json, strict: bool): seq<string> {
    if !payload.Obj? then [ErrorEntry("payload", "must be an object")]
    else
      CharacterIdentityErrors(port, payload.fields)
      + CharacterV1BodyErrors(port, payload.fields, strict)
      + TimestampErrors(port, payload.fields)
      + CharacterV1StrictErrors(port, payload.fields, strict)
  }

  method ValidateCharacterPayloadV1(port: Port, payload: Json, errors: seq<string>, strict: bool)
    returns (errs: seq<string>)
    ensures errs == errors + CharacterPayloadV1Errors(port, payload, strict)
  {
    if !payload.Obj? {
      errs := PushError(errors, "payload", "must be an object");
      return;
    }
    var m := payload.fields;
    var found := ValidateCharacterIdentity(port, m, []);
    EmptyAppend(CharacterIdentityErrors(port, m));
    found := ValidateCharacterV1Body(port, m, found, strict);
    found := ValidateTimestamps(port, m, found);
    found := ValidateCharacterV1Strict(port, m, found, strict);
    errs := errors + found;
  }

  /** The strict checks shared by both persona validators. */
  ghost function PersonaStrictErrors(port: Port, m: map<string, Json>, strict: bool): seq<string> {
    if strict then
      Check(SomeString(Field(port, m, "description")), "payload.description", StrictRequired)
      + Check(SomeNumber(Field(port, m, "createdAt")), "payload.createdAt", StrictRequired)
      + Check(SomeNumber(Field(port, m, "updatedAt")), "payload.updatedAt", StrictRequired)
    else []
  }

  method ValidatePersonaStrict(port: Port, m: map<string, Json>, errors: seq<string>, strict: bool)
    returns (errs: seq<string>)
    ensures errs == errors + PersonaStrictErrors(port, m, strict)
  {
    errs := errors;
    if !strict {
      return;
    }
    var found := CheckSomeString([], Field(port, m, "description"), "payload.description", StrictRequired);
    EmptyAppend(Check(SomeString(Field(port, m, "description")), "payload.description", StrictRequired));
    found := CheckSomeNumber(found, Field(port, m, "createdAt"), "payload.createdAt", StrictRequired);
    found := CheckSomeNumber(found, Field(port, m, "updatedAt"), "payload.updatedAt", StrictRequired);
    errs := errs + found;
  }

  ghost function PersonaPayloadV1Errors(port: Port, payload: Json, strict: bool): seq<string> {
    if !payload.Obj? then [ErrorEntry("payload", "must be an object")]
    else
      var m := payload.fields;
      PersonaIdentityErrors(port, m)
      + Check(OptionalString(Field(port, m, "avatar")), "payload.avatar", "must be a string or null")
      + Check(OptionalBoolean(Field(port, m, "isDefault")), "payload.isDefault", "must be a boolean")
      + TimestampErrors(port, m)
      + PersonaStrictErrors(port, m, strict)
  }

  method ValidatePersonaPayloadV1(port: Port, payload: Json, errors: seq<string>, strict: bool)
    returns (errs: seq<string>)
    ensures errs == errors + PersonaPayloadV1Errors(port, payload, strict)
  {
    if !payload.Obj? {
      errs := PushError(errors, "payload", "must be an object");
      return;
    }
    var m := payload.fields;
    var found := ValidatePersonaIdentity(port, m, []);
    EmptyAppend(PersonaIdentityErrors(port, m));
    found := CheckOptionalString(found, Field(port, m, "avatar"), "payload.avatar", "must be a string or null");
    found := CheckOptionalBoolean(found, Field(port, m, "isDefault"), "payload.isDefault", "must be a boolean");
    found := ValidateTimestamps(port, m, found);
    found := ValidatePersonaStrict(port, m, found, strict);
    errs := errors + found;
  }

  const RulesNotInV2: string := "is not a valid field in v2; use systemPrompt or characterBook instead"

  /** In strict mode a v2 character must not carry `rules` at all. */
  ghost function RulesInV2Errors(port: Port, m: map<string, Json>, strict: bool): seq<string> {
    if strict then Check(Field(port, m, "rules").None?, "payload.rules", RulesNotInV2) else []
  }

  /** The single scene of a v2 character, checked when present and not null. */
  ghost function SceneFieldV2Errors(port: Port, scene: Option<Json>, strict: bool): seq<string> {
    if PresentNonNull(scene) then SceneV2Errors(port, scene.value, "payload.scene", strict) else []
  }

  /** The v2 character's assets, the `rules` ban and its scene. */
  ghost function CharacterV2PresentationErrors(port: Port, m: map<string, Json>, strict: bool): seq<string> {
    AssetLocatorErrors(port, Field(port, m, "avatar"), "payload.avatar")
    + AssetLocatorErrors(port, Field(port, m, "chatBackground"), "payload.chatBackground")
    + RulesInV2Errors(port, m, strict)
    + SceneFieldV2Errors(port, Field(port, m, "scene"), strict)
  }

  method ValidateCharacterV2Presentation(port: Port, m: map<string, Json>, errors: seq<string>, strict: bool)
    returns (errs: seq<string>)
    ensures errs == errors + CharacterV2PresentationErrors(port, m, strict)
  {
    var found := ValidateAssetLocator(port, Field(port, m, "avatar"), "payload.avatar", []);
    EmptyAppend(AssetLocatorErrors(port, Field(port, m, "avatar"), "payload.avatar"));
    found := ValidateAssetLocator(port, Field(port, m, "chatBackground"), "payload.chatBackground", found);
    var rulesFound: seq<string> := [];
    if strict {
      rulesFound := CheckAbsent(rulesFound, Field(port, m, "rules"), "payload.rules", RulesNotInV2);
      EmptyAppend(Check(Field(port, m, "rules").None?, "payload.rules", RulesNotInV2));
    }
    assert rulesFound == RulesInV2Errors(port, m, strict);
    var scene := Field(port, m, "scene");
    var sceneFound: seq<string> := [];
    if PresentNonNull(scene) {
      sceneFound := ValidateSceneV2(port, scene.value, "payload.scene", sceneFound, strict);
      EmptyAppend(SceneV2Errors(port, scene.value, "payload.scene", strict));
    }
    assert sceneFound == SceneFieldV2Errors(port, scene, strict);
    errs := errors + (found + rulesFound + sceneFound);
  }

  /** The v2 character's model, prompt and creator fields. */
  ghost function CharacterV2TextErrors(port: Port, m: map<string, Json>): seq<string> {
    Check(OptionalString(Field(port, m, "defaultModelId")), "payload.defaultModelId", "must be a string or null")
    + Check(OptionalString(Field(port, m, "fallbackModelId")), "payload.fallbackModelId", "must be a string or null")
    + Check(OptionalString(Field(port, m, "systemPrompt")), "payload.systemPrompt", "must be a string or null")
    + Check(OptionalString(Field(port, m, "promptTemplateId")), "payload.promptTemplateId", "must be a string or null")
    + Check(OptionalString(Field(port, m, "nickname")), "payload.nickname", "must be a string or null")
    + Check(OptionalString(Field(port, m, "creator")), "payload.creator", "must be a string or null")
    + Check(OptionalString(Field(port, m, "creatorNotes")), "payload.creatorNotes", "must be a string or null")
    + Check(OptionalObject(Field(port, m, "creatorNotesMultilingual")), "payload.creatorNotesMultilingual", "must be an object if provided")
    + Check(OptionalStringArray(Field(port, m, "source")), "payload.source", "must be an array of strings")
  }

  method ValidateCharacterV2Text(port: Port, m: map<string, Json>, errors: seq<string>) returns (errs: seq<string>)
    ensures errs == errors + CharacterV2TextErrors(port, m)
  {
    var found := CheckOptionalString([], Field(port, m, "defaultModelId"), "payload.defaultModelId", "must be a string or null");
    EmptyAppend(Check(OptionalString(Field(port, m, "defaultModelId")), "payload.defaultModelId", "must be a string or null"));
    found := CheckOptionalString(found, Field(port, m, "fallbackModelId"), "payload.fallbackModelId", "must be a string or null");
    found := CheckOptionalString(found, Field(port, m, "systemPrompt"), "payload.systemPrompt", "must be a string or null");
    found := CheckOptionalString(found, Field(port, m, "promptTemplateId"), "payload.promptTemplateId", "must be a string or null");
    found := CheckOptionalString(found, Field(port, m, "nickname"), "payload.nickname", "must be a string or null");
    found := CheckOptionalString(found, Field(port, m, "creator"), "payload.creator", "must be a string or null");
    found := CheckOptionalString(found, Field(port, m, "creatorNotes"), "payload.creatorNotes", "must be a string or null");
    found := CheckOptionalObject(found, Field(port, m, "creatorNotesMultilingual"), "payload.creatorNotesMultilingual", "must be an object if provided");
    found := CheckOptionalStringArray(found, Field(port, m, "source"), "payload.source", "must be an array of strings");
    errs := errors + found;
  }

  /** The v2 character's voice, autoplay flag and lore book. */
  ghost function CharacterV2ExtrasErrors(port: Port, m: map<string, Json>): seq<string> {
    VoiceConfigV2Errors(port, Field(port, m, "voiceConfig"))
    + Check(OptionalBoolean(Field(port, m, "voiceAutoplay")), "payload.voiceAutoplay", "must be a boolean")
    + CharacterBookErrors(port, Field(port, m, "characterBook"))
  }

  method ValidateCharacterV2Extras(port: Port, m: map<string, Json>, errors: seq<string>) returns (errs: seq<string>)
    ensures errs == errors + CharacterV2ExtrasErrors(port, m)
  {
    var found := ValidateVoiceConfigV2(port, Field(port, m, "voiceConfig"), []);
    EmptyAppend(VoiceConfigV2Errors(port, Field(port, m, "voiceConfig")));
    found := CheckOptionalBoolean(found, Field(port, m, "voiceAutoplay"), "payload.voiceAutoplay", "must be a boolean");
    found := ValidateCharacterBook(port, Field(port, m, "characterBook"), found);
    errs := errors + found;
  }

  ghost function CharacterV2StrictErrors(port: Port, m: map<string, Json>, strict: bool): seq<string> {
    if strict then
      Check(SomeString(Field(port, m, "description")), "payload.description", StrictRequired)
      + Check(SomeObject(Field(port, m, "scene")), "payload.scene", StrictRequired)
      + Check(SomeNumber(Field(port, m, "createdAt")), "payload.createdAt", StrictRequired)
      + Check(SomeNumber(Field(port, m, "updatedAt")), "payload.updatedAt", StrictRequired)
    else []
  }

  method ValidateCharacterV2Strict(port: Port, m: map<string, Json>, errors: seq<string>, strict: bool)
    returns (errs: seq<string>)
    ensures errs == errors + CharacterV2StrictErrors(port, m, strict)
  {
    errs := errors;
    if !strict {
      return;
    }
    var found := CheckSomeString([], Field(port, m, "description"), "payload.description", StrictRequired);
    EmptyAppend(Check(SomeString(Field(port, m, "description")), "payload.description", StrictRequired));
    found := CheckSomeObject(found, Field(port, m, "scene"), "payload.scene", StrictRequired);
    found := CheckSomeNumber(found, Field(port, m, "createdAt"), "payload.createdAt", StrictRequired);
    found := CheckSomeNumber(found, Field(port, m, "updatedAt"), "payload.updatedAt", StrictRequired);
    errs := errs + found;
  }

  ghost function CharacterPayloadV2Errors(port: Port, payload: Json, strict: bool): seq<string> {
    if !payload.Obj? then [ErrorEntry("payload", "must be an object")]
    else
      CharacterIdentityErrors(port, payload.fields)
      + CharacterV2PresentationErrors(port, payload.fields, strict)
      + CharacterV2TextErrors(port, payload.fields)
      + CharacterV2ExtrasErrors(port, payload.fields)
      + TimestampErrors(port, payload.fields)
      + CharacterV2StrictErrors(port, payload.fields, strict)
  }

  method ValidateCharacterPayloadV2(port: Port, payload: Json, errors: seq<string>, strict: bool)
    returns (errs: seq<string>)
    ensures errs == errors + CharacterPayloadV2Errors(port, payload, strict)
  {
    if !payload.Obj? {
      errs := PushError(errors, "payload", "must be an object");
      return;
    }
    var m := payload.fields;
    var found := ValidateCharacterIdentity(port, m, []);
    EmptyAppend(CharacterIdentityErrors(port, m));
    found := ValidateCharacterV2Presentation(port, m, found, strict);
    found := ValidateCharacterV2Text(port, m, found);
    found := ValidateCharacterV2Extras(port, m, found);
    found := ValidateTimestamps(port, m, found);
    found := ValidateCharacterV2Strict(port, m, found, strict);
    errs := errors + found;
  }

  ghost function PersonaPayloadV2Errors(port: Port, payload: Json, strict: bool): seq<string> {
    if !payload.Obj? then [ErrorEntry("payload", "must be an object")]
    else
      var m := payload.fields;
      PersonaIdentityErrors(port, m)
      + AssetLocatorErrors(port, Field(port, m, "avatar"), "payload.avatar")
      + Check(OptionalBoolean(Field(port, m, "isDefault")), "payload.isDefault", "must be a boolean")
      + TimestampErrors(port, m)
      + PersonaStrictErrors(port, m, strict)
  }

  method ValidatePersonaPayloadV2(port: Port, payload: Json, errors: seq<string>, strict: bool)
    returns (errs: seq<string>)
    ensures errs == errors + PersonaPayloadV2Errors(port, payload, strict)
  {
    if !payload.Obj? {
      errs := PushError(errors, "payload", "must be an object");
      return;
    }
    var m := payload.fields;
    var found := ValidatePersonaIdentity(port, m, []);
    EmptyAppend(PersonaIdentityErrors(port, m));
    found := ValidateAssetLocator(port, Field(port, m, "avatar"), "payload.avatar", found);
    found := CheckOptionalBoolean(found, Field(port, m, "isDefault"), "payload.isDefault", "must be a boolean");
    found := ValidateTimestamps(port, m, found);
    found := ValidatePersonaStrict(port, m, found, strict);
    errs := errors + found;
  }

  // =====================================================================
  // The card
  // =====================================================================

  const KindMessage: string := "must be \"character\" or \"persona\""

  predicate KindOk(kind: Option<Json>) {
    kind.Some? && kind.value.Str? && (kind.value.s == "character" || kind.value.s == "persona")
  }

  method CheckKind(errors: seq<string>, kind: Option<Json>) returns (errs: seq<string>)
    ensures errs == errors + Check(KindOk(kind), "kind", KindMessage)
  {
    errs := errors;
    if !KindOk(kind) {
      errs := PushError(errs, "kind", KindMessage);
    }
  }

  predicate IsKnown(version: Option<string>) {
    version.Some? && KnownVersion(version.value)
  }

  /**
   * The payload section: an object is required; its contents are checked
   * only for a known version and a recognised kind.
   */
  ghost function PayloadErrors(port: Port, payload: Option<Json>, kind: Option<Json>, version: Option<string>, strict: bool): seq<string> {
    if !SomeObject(payload) then [ErrorEntry("payload", "must be an object")]
    else if !IsKnown(version) then []
    else
      var isV2 := version.value == SchemaVersionV2;
      match AsString(kind)
      case Some(k) =>
        if k == "character" then
          (if isV2 then CharacterPayloadV2Errors(port, payload.value, strict) else CharacterPayloadV1Errors(port, payload.value, strict))
        else if k == "persona" then
          (if isV2 then PersonaPayloadV2Errors(port, payload.value, strict) else PersonaPayloadV1Errors(port, payload.value, strict))
        else []
      case None => []
  }

  /** The meta section: the v2 check for a v2 card, the v1 check otherwise. */
  ghost function MetaSectionErrors(port: Port, meta: Option<Json>, version: Option<string>, strict: bool): seq<string> {
    if version == Some(SchemaVersionV2) then MetaV2Errors(port, meta, strict) else MetaErrors(port, meta)
  }

  /** The header of a card: its schema block and its kind. */
  ghost function HeaderErrors(port: Port, m: map<string, Json>): seq<string> {
    SchemaErrors(port, Field(port, m, "schema")) + Check(KindOk(Field(port, m, "kind")), "kind", KindMessage)
  }

  /** What follows the payload: settings, meta and extensions. */
  ghost function TrailerErrors(port: Port, m: map<string, Json>, strict: bool): seq<string> {
    SettingsErrors(Field(port, m, "app_specific_settings"))
    + MetaSectionErrors(port, Field(port, m, "meta"), DetectedVersion(port, Field(port, m, "schema")), strict)
    + Check(OptionalObject(Field(port, m, "extensions")), "extensions", "must be an object")
  }

  /** The errors of a card: header, payload section, trailer, in the order the checks run. */
  ghost function UecErrors(port: Port, value: Json, strict: bool): seq<string> {
    if !value.Obj? then [ErrorEntry("root", "must be an object")]
    else
      var m := value.fields;
      HeaderErrors(port, m)
      + PayloadErrors(port, Field(port, m, "payload"), Field(port, m, "kind"), DetectedVersion(port, Field(port, m, "schema")), strict)
      + TrailerErrors(port, m, strict)
  }

  method ValidatePayload(port: Port, payload: Option<Json>, kind: Option<Json>, version: Option<string>, strict: bool)
    returns (errs: seq<string>)
    ensures errs == PayloadErrors(port, payload, kind, version, strict)
  {
    errs := [];
    EmptyAppend(PayloadErrors(port, payload, kind, version, strict));
    if !SomeObject(payload) {
      errs := PushError(errs, "payload", "must be an object");
      return;
    }
    if !IsKnown(version) {
      return;
    }
    var isV2 := version.value == SchemaVersionV2;
    var k := AsString(kind);
    if k == Some("character") {
      if isV2 {
        errs := ValidateCharacterPayloadV2(port, payload.value, errs, strict);
      } else {
        errs := ValidateCharacterPayloadV1(port, payload.value, errs, strict);
      }
    } else if k == Some("persona") {
      if isV2 {
        errs := ValidatePersonaPayloadV2(port, payload.value, errs, strict);
      } else {
        errs := ValidatePersonaPayloadV1(port, payload.value, errs, strict);
      }
    }
  }

  /** `validate_uec`: never fails; `ok` exactly when no rule reported an error. */
  method ValidateUec(port: Port, value: Json, strict: bool) returns (result: ValidationResult)
    ensures result.errors == UecErrors(port, value, strict)
    ensures result.ok <==> result.errors == []
  {
    if !value.Obj? {
      var errors := PushError([], "root", "must be an object");
      return ValidationResult(false, errors);
    }
    var m := value.fields;
    var header, version := ValidateSchema(port, Field(port, m, "schema"), []);
    EmptyAppend(SchemaErrors(port, Field(port, m, "schema")));
    header := CheckKind(header, Field(port, m, "kind"));
    var payloadFound := ValidatePayload(port, Field(port, m, "payload"), Field(port, m, "kind"), version, strict);
    var trailer := ValidateAppSpecificSettings(Field(port, m, "app_specific_settings"), []);
    EmptyAppend(SettingsErrors(Field(port, m, "app_specific_settings")));
    if version == Some(SchemaVersionV2) {
      trailer := ValidateMetaV2(port, Field(port, m, "meta"), trailer, strict);
    } else {
      trailer := ValidateMeta(port, Field(port, m, "meta"), trailer);
    }
    trailer := CheckOptionalObject(trailer, Field(port, m, "extensions"), "extensions", "must be an object");
    var errors := header + payloadFound + trailer;
    result := ValidationResult(errors == [], errors);
  }

  method ValidateUecStrict(port: Port, value: Json) returns (result: ValidationResult)
    ensures result.errors == UecErrors(port, value, true)
    ensures result.ok <==> result.errors == []
  {
    result := ValidateUec(port, value, true);
  }

  // =====================================================================
  // Version pinning, kind tests and the asserting entry point
  // =====================================================================

  /**
   * The version a card announces, as each port reads it for pinning: Rust
   * only a string `schema.version`; Python whatever `schema.get("version")`
   * holds (`Null` for an absent key or a non-object root or schema).
   */
  function AnnouncedVersion(port: Port, value: Json): (r: Json)
    ensures r != Null ==> (value.Obj? && "schema" in value.fields && value.fields["schema"].Obj?
      && "version" in value.fields["schema"].fields && r == value.fields["schema"].fields["version"])
    ensures port == Rust ==> r == Null || r.Str?
  {
    var schema := if value.Obj? then MemberOrNull(value.fields, "schema") else Null;
    var version := if schema.Obj? then MemberOrNull(schema.fields, "version") else Null;
    if port == Rust && !version.Str? then Null else version
  }

  /** Python's `str()` of a scalar JSON value; containers are rendered as a placeholder. */
  function PyStr(v: Json): (r: string)
    ensures v.Str? ==> r == v.s
    ensures v == Null ==> r == "None"
    ensures v.Num? ==> r == IntToString(v.n)
    ensures v.Bool? ==> r == (if v.b then "True" else "False")
    ensures v.Arr? || v.Obj? ==> r == "..."
  {
    match v
    case Null => "None"
    case Bool(b) => if b then "True" else "False"
    case Num(n) => IntToString(n)
    case Str(s) => s
    case _ => "..."
  }

  function VersionMismatchEntry(expected: string, current: string): (r: string)
    ensures StartsWith(r, "schema.version: ")
  {
    ErrorEntry("schema.version", "expected \"" + expected + "\" but received \"" + current + "\"")
  }

  /**
   * The extra entry pinning adds: Rust only when a string version differs,
   * Python whenever the announced value is not the expected string.
   */
  ghost function VersionPinErrors(port: Port, value: Json, version: string): seq<string> {
    var current := AnnouncedVersion(port, value);
    if port == Rust then
      (if current.Str? && current.s != version then [VersionMismatchEntry(version, current.s)] else [])
    else
      (if current != Str(version) then [VersionMismatchEntry(version, PyStr(current))] else [])
  }

  /** `validate_uec_at_version`: the plain result plus the pinning entry, which forces `ok` off. */
  method ValidateUecAtVersion(port: Port, value: Json, version: string, strict: bool) returns (result: ValidationResult)
    ensures result.errors == UecErrors(port, value, strict) + VersionPinErrors(port, value, version)
    ensures result.ok <==> result.errors == []
  {
    result := ValidateUec(port, value, strict);
    var current := AnnouncedVersion(port, value);
    if port == Rust {
      if current.Str? && current.s != version {
        result := ValidationResult(false, result.errors + [VersionMismatchEntry(version, current.s)]);
      }
    } else if current != Str(version) {
      result := ValidationResult(false, result.errors + [VersionMismatchEntry(version, PyStr(current))]);
    }
  }

  /** `is_uec`: the card validates. */
  method IsUec(port: Port, value: Json, strict: bool) returns (r: bool)
    ensures r <==> UecErrors(port, value, strict) == []
  {
    var result := ValidateUec(port, value, strict);
    r := result.ok;
  }

  /** `is_character_uec` / `is_persona_uec`: the card validates and has that kind. */
  method IsKindUec(port: Port, value: Json, strict: bool, kind: string) returns (r: bool)
    ensures r <==> UecErrors(port, value, strict) == [] && value.Obj? && Get(value.fields, "kind") == Some(Str(kind))
  {
    r := IsUec(port, value, strict);
    r := r && value.Obj? && "kind" in value.fields && value.fields["kind"] == Str(kind);
  }

  method IsCharacterUec(port: Port, value: Json, strict: bool) returns (r: bool)
    ensures r <==> UecErrors(port, value, strict) == [] && value.Obj? && Get(value.fields, "kind") == Some(Str("character"))
  {
    r := IsKindUec(port, value, strict, "character");
  }

  method IsPersonaUec(port: Port, value: Json, strict: bool) returns (r: bool)
    ensures r <==> UecErrors(port, value, strict) == [] && value.Obj? && Get(value.fields, "kind") == Some(Str("persona"))
  {
    r := IsKindUec(port, value, strict, "persona");
  }

  function InvalidMessage(errors: seq<string>): (r: string)
    ensures StartsWith(r, "Invalid UEC: ")
    ensures r[|"Invalid UEC: "|..] == JoinWith(errors, "; ")
  {
    JoinedErrors("Invalid UEC: ", errors)
  }

  /** `assert_uec`: the card itself when it validates, otherwise every error joined by `"; "`. */
  method AssertUec(port: Port, value: Json, strict: bool) returns (r: Result<Json, string>)
    ensures r.Ok? <==> UecErrors(port, value, strict) == []
    ensures r.Ok? ==> r.value == value
    ensures r.Err? ==> r.error == InvalidMessage(UecErrors(port, value, strict))
  {
    var result := ValidateUec(port, value, strict);
    if result.ok {
      r := Ok(value);
    } else {
      r := Err(InvalidMessage(result.errors));
    }
  }
}

/**
 * The card constructors (rust/src/create.rs, python/uec/create.py):
 * `create_uec` assembles the six-key envelope around a payload, overlays
 * the caller's schema on the default header, and for a v1 character can
 * mark `systemPrompt` as a template id with the `"_ID:"` prefix.
 *
 * Rust panics and Python raises `ValueError` on an empty kind or a
 * non-object payload; both are the `Err` of `CreatedUec`. The optional
 * parts default differently: Rust replaces only a missing value with
 * `{}`, Python (`value or {}`) also every falsy one.
 */
module Create {
  import opened JsonModel
  import opened Utils

  const KindRequired: string := "kind is required"
  const PayloadNotObject: string := "payload must be an object"

  /** The six top-level keys of a created card. */
  const EnvelopeKeys: set<string> := {"schema", "kind", "payload", "app_specific_settings", "meta", "extensions"}

  // ---------------------------------------------------------------------
  // `systemPrompt` as a template id
  // ---------------------------------------------------------------------

  /** `_system_prompt_is_id`: `systemPrompt` is a string carrying the id prefix. */
  predicate SystemPromptIsId(payload: Json) {
    match Member(payload, "systemPrompt")
    case Some(Str(prompt)) => StartsWith(prompt, IdPrefix)
    case _ => false
  }

  /** `systemPrompt` is a string without the id prefix. */
  predicate UnprefixedPrompt(payload: Json) {
    match Member(payload, "systemPrompt")
    case Some(Str(prompt)) => !StartsWith(prompt, IdPrefix)
    case _ => false
  }

  /**
   * `normalize_system_prompt`: when asked to, prefixes a string prompt
   * that lacks the prefix; the payload is otherwise returned as it is.
   */
  function NormalizeSystemPrompt(payload: Json, systemPromptIsId: bool): (r: Json)
    ensures r != payload <==> systemPromptIsId && UnprefixedPrompt(payload)
    ensures r != payload ==>
      r == Obj(payload.fields["systemPrompt" := Str(IdPrefix + payload.fields["systemPrompt"].s)])
    ensures systemPromptIsId && (SystemPromptIsId(payload) || UnprefixedPrompt(payload)) ==> SystemPromptIsId(r)
  {
    if systemPromptIsId && UnprefixedPrompt(payload) then
      var prompt := payload.fields["systemPrompt"].s;
      StartsWithConcat(IdPrefix, prompt);
      assert IdPrefix + prompt != prompt;
      Obj(payload.fields["systemPrompt" := Str(IdPrefix + prompt)])
    else payload
  }

  /** Prefixing twice is prefixing once. */
  lemma NormalizeSystemPromptIdempotent(payload: Json, systemPromptIsId: bool)
    ensures NormalizeSystemPrompt(NormalizeSystemPrompt(payload, systemPromptIsId), systemPromptIsId)
      == NormalizeSystemPrompt(payload, systemPromptIsId)
  {
    var once := NormalizeSystemPrompt(payload, systemPromptIsId);
    if once != payload {
      StartsWithConcat(IdPrefix, payload.fields["systemPrompt"].s);
      assert !UnprefixedPrompt(once);
    }
  }

  /** The original prompt is the prefixed one with the prefix taken off. */
  lemma NormalizeSystemPromptRecoverable(payload: Json)
    requires UnprefixedPrompt(payload)
    ensures var r := NormalizeSystemPrompt(payload, true);
      r.fields["systemPrompt"].s[|IdPrefix|..] == payload.fields["systemPrompt"].s
  {
  }

  // ---------------------------------------------------------------------
  // Defaults and the schema header
  // ---------------------------------------------------------------------

  /** Python truthiness: `None`, `False`, `0`, `""`, `[]` and `{}` are falsy. */
  predicate PyFalsy(v: Json) {
    v == Null || v == Bool(false) || v == Num(0) || v == Str("") || v == Arr([]) || v == Obj(map[])
  }

  /** Rust `unwrap_or({})`, Python `value or {}`. */
  function OrEmptyObject(port: Port, value: Option<Json>): (r: Json)
    ensures value.None? ==> r == Obj(map[])
    ensures value.Some? && !PyFalsy(value.value) ==> r == value.value
    ensures port == Rust && value.Some? ==> r == value.value
    ensures port == Python && value.Some? && PyFalsy(value.value) ==> r == Obj(map[])
  {
    if value.None? || (port == Python && PyFalsy(value.value)) then Obj(map[]) else value.value
  }

  /** The caller's schema selects version 2 by a string `version` of `"2.0"`. */
  predicate IsV2(schema: Option<map<string, Json>>) {
    schema.Some? && Get(schema.value, "version") == Some(Str(SchemaVersionV2))
  }

  /** The caller's schema, none given being `{}`. */
  function CustomSchema(schema: Option<map<string, Json>>): (r: map<string, Json>)
    ensures schema.Some? ==> r == schema.value
    ensures schema.None? ==> r == map[]
  {
    if schema.Some? then schema.value else map[]
  }

  /** The default header `{name: "UEC", version}`. */
  function BaseSchema(isV2: bool): (r: map<string, Json>)
    ensures r.Keys == {"name", "version"}
    ensures r["name"] == Str(SchemaName)
    ensures r["version"] == Str(if isV2 then SchemaVersionV2 else SchemaVersion)
  {
    map["name" := Str(SchemaName), "version" := Str(if isV2 then SchemaVersionV2 else SchemaVersion)]
  }

  /** The header of a created card: the default header overlaid by the caller's schema. */
  function CreatedSchema(schema: Option<map<string, Json>>): map<string, Json> {
    BaseSchema(IsV2(schema)) + CustomSchema(schema)
  }

  /** A v1 character has its prompt normalised; any other card keeps its payload. */
  function CreatedPayload(kind: string, payload: Json, schema: Option<map<string, Json>>, systemPromptIsId: bool): Json {
    if kind == "character" && !IsV2(schema) then NormalizeSystemPrompt(payload, systemPromptIsId) else payload
  }

  /** `create_uec`. */
  function CreatedUec(port: Port, kind: string, payload: Json, schema: Option<map<string, Json>>,
                      appSpecificSettings: Option<Json>, meta: Option<Json>, extensions: Option<Json>,
                      systemPromptIsId: bool): (r: Result<Json, string>)
    ensures kind == "" ==> r == Err(KindRequired)
    ensures kind != "" && !payload.Obj? ==> r == Err(PayloadNotObject)
    ensures r.Ok? <==> kind != "" && payload.Obj?
    ensures r.Ok? ==> r.value.Obj? && r.value.fields.Keys == EnvelopeKeys
  {
    if kind == "" then Err(KindRequired)
    else if !payload.Obj? then Err(PayloadNotObject)
    else
      Ok(Obj(map[
        "schema" := Obj(CreatedSchema(schema)),
        "kind" := Str(kind),
        "payload" := CreatedPayload(kind, payload, schema, systemPromptIsId),
        "app_specific_settings" := OrEmptyObject(port, appSpecificSettings),
        "meta" := OrEmptyObject(port, meta),
        "extensions" := OrEmptyObject(port, extensions)]))
  }

  /** The loop of `create_uec` that inserts every key of the caller's schema into the header. */
  method OverlaySchema(base: map<string, Json>, custom: map<string, Json>) returns (r: map<string, Json>)
    ensures r == base + custom
  {
    r := base;
    var rest := custom;
    while rest.Keys != {}
      invariant r + rest == base + custom
      decreases rest.Keys
    {
      var key :| key in rest.Keys;
      var value := rest[key];
      var next := map k | k in rest.Keys - {key} :: rest[k];
      assert r[key := value] + next == r + rest;
      r := r[key := value];
      rest := next;
    }
    assert rest == map[];
  }

  /** `create_uec`, one insertion at a time. */
  method CreateUec(port: Port, kind: string, payload: Json, schema: Option<map<string, Json>>,
                   appSpecificSettings: Option<Json>, meta: Option<Json>, extensions: Option<Json>,
                   systemPromptIsId: bool) returns (r: Result<Json, string>)
    ensures r == CreatedUec(port, kind, payload, schema, appSpecificSettings, meta, extensions, systemPromptIsId)
  {
    if kind == "" {
      return Err(KindRequired);
    }
    if !payload.Obj? {
      return Err(PayloadNotObject);
    }
    var isV2 := IsV2(schema);
    var header := OverlaySchema(BaseSchema(isV2), CustomSchema(schema));
    var normalized := if kind == "character" && !isV2 then NormalizeSystemPrompt(payload, systemPromptIsId) else payload;
    var root: map<string, Json> := map[];
    root := root["schema" := Obj(header)];
    root := root["kind" := Str(kind)];
    root := root["payload" := normalized];
    root := root["app_specific_settings" := OrEmptyObject(port, appSpecificSettings)];
    root := root["meta" := OrEmptyObject(port, meta)];
    root := root["extensions" := OrEmptyObject(port, extensions)];
    r := Ok(Obj(root));
  }

  // ---------------------------------------------------------------------
  // The kind and version wrappers
  // ---------------------------------------------------------------------

  /** `create_character_uec`. */
  function CreateCharacterUec(port: Port, payload: map<string, Json>, systemPromptIsId: bool, schema: Option<map<string, Json>>,
                              appSpecificSettings: Option<Json>, meta: Option<Json>, extensions: Option<Json>): (r: Json)
    ensures r.Obj? && r.fields.Keys == EnvelopeKeys && r.fields["kind"] == Str("character")
    ensures Ok(r) == CreatedUec(port, "character", Obj(payload), schema, appSpecificSettings, meta, extensions, systemPromptIsId)
  {
    CreatedUec(port, "character", Obj(payload), schema, appSpecificSettings, meta, extensions, systemPromptIsId).value
  }

  /** `create_persona_uec`: a persona never has its prompt touched. */
  function CreatePersonaUec(port: Port, payload: map<string, Json>, schema: Option<map<string, Json>>,
                            appSpecificSettings: Option<Json>, meta: Option<Json>, extensions: Option<Json>): (r: Json)
    ensures r.Obj? && r.fields.Keys == EnvelopeKeys && r.fields["kind"] == Str("persona")
    ensures r.fields["payload"] == Obj(payload)
  {
    CreatedUec(port, "persona", Obj(payload), schema, appSpecificSettings, meta, extensions, false).value
  }

  /** The caller's schema (a copy) with `version` forced to `"2.0"`. */
  function ForcedV2Schema(schema: Option<map<string, Json>>): (r: map<string, Json>)
    ensures IsV2(Some(r))
    ensures forall k :: k in CustomSchema(schema) && k != "version" ==> k in r && r[k] == CustomSchema(schema)[k]
  {
    CustomSchema(schema)["version" := Str(SchemaVersionV2)]
  }

  /** `create_character_uec_v2`: a v2 character, its prompt untouched. */
  function CreateCharacterUecV2(port: Port, payload: map<string, Json>, schema: Option<map<string, Json>>,
                                appSpecificSettings: Option<Json>, meta: Option<Json>, extensions: Option<Json>): (r: Json)
    ensures r.Obj? && r.fields.Keys == EnvelopeKeys && r.fields["kind"] == Str("character")
    ensures r.fields["schema"].Obj? && Get(r.fields["schema"].fields, "version") == Some(Str(SchemaVersionV2))
    ensures r.fields["payload"] == Obj(payload)
  {
    CreatedUec(port, "character", Obj(payload), Some(ForcedV2Schema(schema)), appSpecificSettings, meta, extensions, false).value
  }

  /** `create_persona_uec_v2`. */
  function CreatePersonaUecV2(port: Port, payload: map<string, Json>, schema: Option<map<string, Json>>,
                              appSpecificSettings: Option<Json>, meta: Option<Json>, extensions: Option<Json>): (r: Json)
    ensures r.Obj? && r.fields.Keys == EnvelopeKeys && r.fields["kind"] == Str("persona")
    ensures r.fields["schema"].Obj? && Get(r.fields["schema"].fields, "version") == Some(Str(SchemaVersionV2))
    ensures r.fields["payload"] == Obj(payload)
  {
    CreatedUec(port, "persona", Obj(payload), Some(ForcedV2Schema(schema)), appSpecificSettings, meta, extensions, false).value
  }

  // ---------------------------------------------------------------------
  // Properties
  // ---------------------------------------------------------------------

  /**
   * The header: a key the caller gave wins; otherwise `name` is `"UEC"`
   * and `version` is `"1.0"` (a `"2.0"` can only come from the caller).
   * Its version is `"2.0"` exactly when the caller asked for v2.
   */
  lemma CreatedSchemaHeader(schema: Option<map<string, Json>>)
    ensures var h := CreatedSchema(schema);
      h.Keys == {"name", "version"} + CustomSchema(schema).Keys
      && (forall k :: k in CustomSchema(schema) ==> h[k] == CustomSchema(schema)[k])
      && ("name" !in CustomSchema(schema) ==> h["name"] == Str(SchemaName))
      && ("version" !in CustomSchema(schema) ==> h["version"] == Str(SchemaVersion))
    ensures CreatedSchema(schema)["version"] == Str(SchemaVersionV2) <==> IsV2(schema)
  {
  }

  /**
   * The prompt is prefixed exactly for a v1 character, with the flag set
   * and a string prompt that lacks the prefix.
   */
  lemma CreatedPromptRule(kind: string, payload: Json, schema: Option<map<string, Json>>, systemPromptIsId: bool)
    ensures CreatedPayload(kind, payload, schema, systemPromptIsId) != payload <==>
      kind == "character" && !IsV2(schema) && systemPromptIsId && UnprefixedPrompt(payload)
    ensures CreatedPayload(kind, payload, schema, systemPromptIsId) != payload ==>
      SystemPromptIsId(CreatedPayload(kind, payload, schema, systemPromptIsId))
  {
  }

  /** The two ports default alike except on a falsy value other than `{}`, which only Python replaces. */
  lemma DefaultsPorts(value: Option<Json>)
    ensures OrEmptyObject(Rust, value) != OrEmptyObject(Python, value) <==>
      value.Some? && PyFalsy(value.value) && value.value != Obj(map[])
  {
  }

  /** So the two ports create the same card unless an optional part is given as a non-empty falsy value. */
  lemma CreatePorts(kind: string, payload: Json, schema: Option<map<string, Json>>,
                    appSpecificSettings: Option<Json>, meta: Option<Json>, extensions: Option<Json>, systemPromptIsId: bool)
    requires forall o :: o in [appSpecificSettings, meta, extensions] && o.Some? && PyFalsy(o.value) ==> o.value == Obj(map[])
    ensures CreatedUec(Rust, kind, payload, schema, appSpecificSettings, meta, extensions, systemPromptIsId)
      == CreatedUec(Python, kind, payload, schema, appSpecificSettings, meta, extensions, systemPromptIsId)
  {
    DefaultsPorts(appSpecificSettings);
    DefaultsPorts(meta);
    DefaultsPorts(extensions);
  }
}

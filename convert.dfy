/**
 * The v1 to v2 converter (rust/src/convert.rs, python/uec/convert.py).
 *
 * `ConvertV1ToV2` follows the code step by step on local copies of the
 * card's maps. It is proved to return the card described declaratively
 * by `ConvertedCard`, whose properties are the lemmas that follow it.
 */
module Convert {
  import opened JsonModel
  import opened Utils
  import opened Validators

  const NotObjectMessage: string := "card must be an object"
  const WrongVersionMessage: string := "card must be schema version \"1.0\" to convert"

  function InvalidCardMessage(errors: seq<string>): (r: string)
    ensures StartsWith(r, "card must be a valid v1 UEC: ")
    ensures r[|"card must be a valid v1 UEC: "|..] == JoinWith(errors, "; ")
  {
    JoinedErrors("card must be a valid v1 UEC: ", errors)
  }

  // =====================================================================
  // Scenes
  // =====================================================================

  /** A scene object whose `id` is the string `id`. */
  predicate SceneHasId(scene: Json, id: string) {
    AsString(Member(scene, "id")) == Some(id)
  }

  /** The position of the first scene carrying `id`, if there is one. */
  function FindSceneById(scenes: seq<Json>, id: string): (r: Option<nat>)
    ensures r.Some? ==> r.value < |scenes| && SceneHasId(scenes[r.value], id)
    ensures r.Some? ==> forall j :: 0 <= j < r.value ==> !SceneHasId(scenes[j], id)
    ensures r.None? ==> forall j :: 0 <= j < |scenes| ==> !SceneHasId(scenes[j], id)
    decreases |scenes|
  {
    if scenes == [] then None
    else if SceneHasId(scenes[0], id) then Some(0)
    else match FindSceneById(scenes[1..], id)
      case Some(i) => Some(i + 1)
      case None => None
  }

  /**
   * The scene kept by the conversion: the first one whose `id` is the
   * string `defaultSceneId`, otherwise the first scene.
   */
  function PickScene(scenes: seq<Json>, defaultId: Option<string>): (r: Json)
    requires scenes != []
    ensures r in scenes
    ensures defaultId.Some? && FindSceneById(scenes, defaultId.value).Some?
      ==> SceneHasId(r, defaultId.value) && r == scenes[FindSceneById(scenes, defaultId.value).value]
    ensures (defaultId.None? || FindSceneById(scenes, defaultId.value).None?) ==> r == scenes[0]
  {
    if defaultId.Some? then
      match FindSceneById(scenes, defaultId.value)
      case Some(i) => scenes[i]
      case None => scenes[0]
    else scenes[0]
  }

  /** `selectedVariantId` becomes `selectedVariant`, with null mapped to 0. */
  function ConvertScene(scene: map<string, Json>): (r: map<string, Json>)
    ensures "selectedVariantId" !in r
    ensures "selectedVariantId" !in scene ==> r == scene
    ensures "selectedVariantId" in scene ==> ("selectedVariant" in r
      && r["selectedVariant"] == (if scene["selectedVariantId"] == Null then Num(0) else scene["selectedVariantId"]))
    ensures forall k :: k in scene && k != "selectedVariantId" && k != "selectedVariant" ==> k in r && r[k] == scene[k]
    ensures forall k :: k in r ==> k in scene || k == "selectedVariant"
  {
    if "selectedVariantId" in scene then
      var selected := scene["selectedVariantId"];
      (scene - {"selectedVariantId"})["selectedVariant" := if selected == Null then Num(0) else selected]
    else scene
  }

  /** The `scene` a v1 payload turns into, when its `scenes` list holds one to pick. */
  function NewScene(payload: map<string, Json>): Option<Json> {
    if "scenes" in payload && payload["scenes"].Arr? && payload["scenes"].items != [] then
      var picked := PickScene(payload["scenes"].items, AsString(Get(payload, "defaultSceneId")));
      if picked.Obj? then Some(Obj(ConvertScene(picked.fields))) else None
    else None
  }

  /** The template id carried by a `"_ID:"`-prefixed `systemPrompt`. */
  function PromptTemplate(payload: map<string, Json>): (r: Option<string>)
    ensures r.Some? <==> "systemPrompt" in payload && payload["systemPrompt"].Str? && StartsWith(payload["systemPrompt"].s, IdPrefix)
    ensures r.Some? ==> payload["systemPrompt"].s == IdPrefix + r.value
  {
    if "systemPrompt" in payload && payload["systemPrompt"].Str? && StartsWith(payload["systemPrompt"].s, IdPrefix) then
      var s := payload["systemPrompt"].s;
      assert s == s[..|IdPrefix|] + s[|IdPrefix|..];
      Some(s[|IdPrefix|..])
    else None
  }

  /** The converted payload. */
  function ConvertedPayload(payload: map<string, Json>): map<string, Json> {
    var kept := payload - {"rules", "scenes", "defaultSceneId"};
    var withScene := match NewScene(payload) case Some(scene) => kept["scene" := scene] case None => kept;
    match PromptTemplate(payload)
    case Some(id) => withScene["promptTemplateId" := Str(id)]["systemPrompt" := Null]
    case None => withScene
  }

  // =====================================================================
  // Meta
  // =====================================================================

  /**
   * Whether `original*` may be filled: Rust only when the key is absent,
   * Python also when it holds null.
   */
  predicate MayFill(port: Port, meta: map<string, Json>, target: string) {
    target !in meta || (port == Python && meta[target] == Null)
  }

  /** Copies `source` into `target` when allowed and `source` has the wanted type. */
  function FillOriginal(port: Port, meta: map<string, Json>, target: string, source: string, wantString: bool): (r: map<string, Json>)
    ensures MayFill(port, meta, target) && source in meta
      && (if wantString then IsString(meta[source]) else IsNumber(meta[source]))
      ==> r == meta[target := meta[source]]
    ensures !(MayFill(port, meta, target) && source in meta && (if wantString then IsString(meta[source]) else IsNumber(meta[source])))
      ==> r == meta
  {
    if MayFill(port, meta, target) && source in meta && (if wantString then IsString(meta[source]) else IsNumber(meta[source])) then
      meta[target := meta[source]]
    else meta
  }

  /** The converted meta: the old object (or a fresh one) with the provenance fields filled. */
  function ConvertedMeta(port: Port, meta: Json): map<string, Json> {
    var m := FieldsOrEmpty(meta);
    var created := FillOriginal(port, m, "originalCreatedAt", "createdAt", false);
    var updated := FillOriginal(port, created, "originalUpdatedAt", "updatedAt", false);
    FillOriginal(port, updated, "originalSource", "source", true)
  }

  /** The converted card: new schema version, converted payload and meta, everything else as it was. */
  function ConvertedCard(port: Port, card: map<string, Json>): map<string, Json> {
    var schema := FieldsOrEmpty(MemberOrNull(card, "schema"));
    var payload := FieldsOrEmpty(MemberOrNull(card, "payload"));
    card["schema" := Obj(schema["version" := Str(SchemaVersionV2)])]
      ["payload" := Obj(ConvertedPayload(payload))]
      ["meta" := Obj(ConvertedMeta(port, MemberOrNull(card, "meta")))]
  }

  // =====================================================================
  // The converter
  // =====================================================================

  /** The picked scene's `selectedVariantId` renamed to `selectedVariant`, null becoming 0. */
  method RenameSelectedVariant(picked: map<string, Json>) returns (scene: map<string, Json>)
    ensures scene == ConvertScene(picked)
  {
    scene := picked;
    if "selectedVariantId" in scene {
      var selected := scene["selectedVariantId"];
      scene := scene - {"selectedVariantId"};
      scene := scene["selectedVariant" := if selected == Null then Num(0) else selected];
    }
  }

  /** The scene step of `convert_uec_v1_to_v2`: `rules` and the scene list go, the picked scene comes in. */
  method ConvertScenes(payload: map<string, Json>) returns (next: map<string, Json>)
    ensures next == match NewScene(payload)
      case Some(scene) => (payload - {"rules", "scenes", "defaultSceneId"})["scene" := scene]
      case None => payload - {"rules", "scenes", "defaultSceneId"}
  {
    next := payload - {"rules"};
    if "scenes" in next {
      var scenes := next["scenes"];
      if scenes.Arr? && |scenes.items| > 0 {
        var picked := PickScene(scenes.items, AsString(Get(next, "defaultSceneId")));
        if picked.Obj? {
          var scene := RenameSelectedVariant(picked.fields);
          next := next["scene" := Obj(scene)];
        }
      }
      next := next - {"scenes"};
    }
    next := next - {"defaultSceneId"};
  }

  /** The part of `convert_uec_v1_to_v2` that rewrites the payload of a valid card. */
  method ConvertPayload(payload: map<string, Json>) returns (next: map<string, Json>)
    ensures next == ConvertedPayload(payload)
  {
    next := ConvertScenes(payload);
    var prompt := Get(next, "systemPrompt");
    if prompt.Some? && prompt.value.Str? && StartsWith(prompt.value.s, IdPrefix) {
      next := next["promptTemplateId" := Str(prompt.value.s[|IdPrefix|..])];
      next := next["systemPrompt" := Null];
    }
  }

  /** The part of `convert_uec_v1_to_v2` that fills the provenance fields of meta. */
  method ConvertMeta(port: Port, meta: Json) returns (next: map<string, Json>)
    ensures next == ConvertedMeta(port, meta)
  {
    next := FieldsOrEmpty(meta);
    if MayFill(port, next, "originalCreatedAt") && "createdAt" in next && IsNumber(next["createdAt"]) {
      next := next["originalCreatedAt" := next["createdAt"]];
    }
    if MayFill(port, next, "originalUpdatedAt") && "updatedAt" in next && IsNumber(next["updatedAt"]) {
      next := next["originalUpdatedAt" := next["updatedAt"]];
    }
    if MayFill(port, next, "originalSource") && "source" in next && IsString(next["source"]) {
      next := next["originalSource" := next["source"]];
    }
  }

  /** The rewrite `convert_uec_v1_to_v2` applies to a card that passed its checks. */
  method ConvertCard(port: Port, card: map<string, Json>) returns (next: map<string, Json>)
    ensures next == ConvertedCard(port, card)
  {
    next := card;
    var schema := FieldsOrEmpty(MemberOrNull(next, "schema"));
    schema := schema["version" := Str(SchemaVersionV2)];
    next := next["schema" := Obj(schema)];
    var payload := ConvertPayload(FieldsOrEmpty(MemberOrNull(next, "payload")));
    next := next["payload" := Obj(payload)];
    var meta := ConvertMeta(port, MemberOrNull(next, "meta"));
    next := next["meta" := Obj(meta)];
  }

  /** The outcome of `convert_uec_v1_to_v2`, error or converted card. */
  ghost function ConvertOutcome(port: Port, card: Json): Result<Json, string> {
    if !card.Obj? then Err(NotObjectMessage)
    else if UecErrors(port, card, false) != [] then Err(InvalidCardMessage(UecErrors(port, card, false)))
    else if AnnouncedVersion(port, card) != Str(SchemaVersion) then Err(WrongVersionMessage)
    else Ok(Obj(ConvertedCard(port, card.fields)))
  }

  /**
   * `convert_uec_v1_to_v2`: fails on a non-object, on a card that does not
   * validate (non-strict) and on a card that is not version "1.0", in that
   * order; otherwise returns the converted card.
   */
  method ConvertV1ToV2(port: Port, card: Json) returns (r: Result<Json, string>)
    ensures !card.Obj? ==> r == Err(NotObjectMessage)
    ensures card.Obj? && UecErrors(port, card, false) != []
      ==> r == Err(InvalidCardMessage(UecErrors(port, card, false)))
    ensures card.Obj? && UecErrors(port, card, false) == [] && AnnouncedVersion(port, card) != Str(SchemaVersion)
      ==> r == Err(WrongVersionMessage)
    ensures r.Ok? <==> card.Obj? && UecErrors(port, card, false) == [] && AnnouncedVersion(port, card) == Str(SchemaVersion)
    ensures r.Ok? ==> r.value == Obj(ConvertedCard(port, card.fields))
    ensures r == ConvertOutcome(port, card)
  {
    if !card.Obj? {
      return Err(NotObjectMessage);
    }
    var validation := ValidateUec(port, card, false);
    if !validation.ok {
      return Err(InvalidCardMessage(validation.errors));
    }
    if AnnouncedVersion(port, card) != Str(SchemaVersion) {
      return Err(WrongVersionMessage);
    }
    var next := ConvertCard(port, card.fields);
    r := Ok(Obj(next));
  }

  // =====================================================================
  // Properties of the converted card
  // =====================================================================

  /** The schema is the old one at version "2.0"; every top-level key other than schema, payload and meta is kept. */
  lemma ConvertedEnvelope(port: Port, card: map<string, Json>)
    ensures var out := ConvertedCard(port, card);
      "schema" in out && out["schema"].Obj? && out["schema"].fields["version"] == Str(SchemaVersionV2)
    ensures var out := ConvertedCard(port, card);
      "schema" in card && card["schema"].Obj? ==> out["schema"] == Obj(card["schema"].fields["version" := Str(SchemaVersionV2)])
    ensures var out := ConvertedCard(port, card);
      out.Keys == card.Keys + {"schema", "payload", "meta"}
      && forall k :: k in card && k !in {"schema", "payload", "meta"} ==> out[k] == card[k]
  {
  }

  /** `rules`, `scenes` and `defaultSceneId` never survive; keys the conversion does not touch are kept. */
  lemma ConvertedPayloadKeys(payload: map<string, Json>)
    ensures var out := ConvertedPayload(payload);
      "rules" !in out && "scenes" !in out && "defaultSceneId" !in out
    ensures var out := ConvertedPayload(payload);
      forall k :: k in payload && k !in {"rules", "scenes", "defaultSceneId", "scene", "promptTemplateId", "systemPrompt"}
        ==> k in out && out[k] == payload[k]
    ensures var out := ConvertedPayload(payload);
      forall k :: k in out ==> k in payload || k in {"scene", "promptTemplateId", "systemPrompt"}
  {
  }

  /** With `scenes` absent, not a list or empty, `scene` is left as it was (absent in a v1 card). */
  lemma NoSceneToPick(payload: map<string, Json>)
    requires "scenes" !in payload || !payload["scenes"].Arr? || payload["scenes"].items == []
    ensures ("scene" in ConvertedPayload(payload)) <==> "scene" in payload
    ensures "scene" in payload ==> ConvertedPayload(payload)["scene"] == payload["scene"]
  {
  }

  /** With a non-empty `scenes` list, `scene` is the picked scene converted, when it is an object. */
  lemma PickedSceneKept(payload: map<string, Json>)
    requires "scenes" in payload && payload["scenes"].Arr? && payload["scenes"].items != []
    ensures var picked := PickScene(payload["scenes"].items, AsString(Get(payload, "defaultSceneId")));
      picked.Obj? ==> "scene" in ConvertedPayload(payload) && ConvertedPayload(payload)["scene"] == Obj(ConvertScene(picked.fields))
  {
  }

  /** A `"_ID:"` prompt moves, stripped, to `promptTemplateId` and leaves a null prompt; any other prompt stays. */
  lemma PromptMoved(payload: map<string, Json>, rest: string)
    requires "systemPrompt" in payload && payload["systemPrompt"] == Str(IdPrefix + rest)
    ensures var out := ConvertedPayload(payload);
      "promptTemplateId" in out && out["promptTemplateId"] == Str(rest) && "systemPrompt" in out && out["systemPrompt"] == Null
  {
    StartsWithConcat(IdPrefix, rest);
    assert (IdPrefix + rest)[|IdPrefix|..] == rest;
  }

  lemma PromptKept(payload: map<string, Json>)
    requires PromptTemplate(payload).None?
    ensures var out := ConvertedPayload(payload);
      ("systemPrompt" in out <==> "systemPrompt" in payload)
      && ("systemPrompt" in payload ==> out["systemPrompt"] == payload["systemPrompt"])
      && ("promptTemplateId" in out <==> "promptTemplateId" in payload)
      && ("promptTemplateId" in payload ==> out["promptTemplateId"] == payload["promptTemplateId"])
  {
  }

  /**
   * The provenance fields: each is copied from its source only when it may
   * be filled and the source has the right type; a value already there is
   * kept (in Python, unless it is null); no other key changes.
   */
  lemma ConvertedMetaFields(port: Port, meta: Json)
    ensures var out := ConvertedMeta(port, meta); var m := FieldsOrEmpty(meta);
      ("originalCreatedAt" in m && !MayFill(port, m, "originalCreatedAt") ==> out["originalCreatedAt"] == m["originalCreatedAt"])
      && (MayFill(port, m, "originalCreatedAt") && "createdAt" in m && IsNumber(m["createdAt"]) ==> out["originalCreatedAt"] == m["createdAt"])
      && ("originalUpdatedAt" in m && !MayFill(port, m, "originalUpdatedAt") ==> out["originalUpdatedAt"] == m["originalUpdatedAt"])
      && (MayFill(port, m, "originalUpdatedAt") && "updatedAt" in m && IsNumber(m["updatedAt"]) ==> out["originalUpdatedAt"] == m["updatedAt"])
      && ("originalSource" in m && !MayFill(port, m, "originalSource") ==> out["originalSource"] == m["originalSource"])
      && (MayFill(port, m, "originalSource") && "source" in m && IsString(m["source"]) ==> out["originalSource"] == m["source"])
    ensures var out := ConvertedMeta(port, meta); var m := FieldsOrEmpty(meta);
      forall k :: k in m && k !in {"originalCreatedAt", "originalUpdatedAt", "originalSource"} ==> k in out && out[k] == m[k]
    ensures var out := ConvertedMeta(port, meta); var m := FieldsOrEmpty(meta);
      forall k :: k in out ==> k in m || k in {"originalCreatedAt", "originalUpdatedAt", "originalSource"}
  {
  }

  /** Where the ports differ: an explicit null `originalCreatedAt` is overwritten by Python only. */
  lemma NullOriginalPorts(meta: map<string, Json>)
    requires "originalCreatedAt" in meta && meta["originalCreatedAt"] == Null
    requires "createdAt" in meta && meta["createdAt"].Num?
    ensures ConvertedMeta(Rust, Obj(meta))["originalCreatedAt"] == Null
    ensures ConvertedMeta(Python, Obj(meta))["originalCreatedAt"] == meta["createdAt"]
  {
  }
}

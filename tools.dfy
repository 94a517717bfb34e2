/**
 * The card-level tools: `normalize_uec`, `parse_uec`, `upgrade_uec` and
 * `downgrade_uec` (rust/src/tools.rs, python/uec/tools.py).
 *
 * Each imperative operation is a method proved equal to a function that
 * describes its outcome; the properties are lemmas about those functions.
 */
module Tools {
  import opened JsonModel
  import opened Utils
  import opened Validators
  import opened Convert

  // =====================================================================
  // normalize_uec
  // =====================================================================

  const ContainerKeys: set<string> := {"app_specific_settings", "meta", "extensions"}

  /** `key` holds an object afterwards: the old one if it was, `{}` otherwise. */
  function EnsureObject(m: map<string, Json>, key: string): (r: map<string, Json>)
    ensures key in r && r[key].Obj?
    ensures key in m && m[key].Obj? ==> r == m
    ensures !(key in m && m[key].Obj?) ==> r == m[key := Obj(map[])]
  {
    if key in m && m[key].Obj? then m else m[key := Obj(map[])]
  }

  /** The card `normalize_uec` returns. */
  function NormalizedUec(card: Json): Json {
    var v := NormalizeValue(card);
    if v.Obj? then
      Obj(EnsureObject(EnsureObject(EnsureObject(v.fields, "app_specific_settings"), "meta"), "extensions"))
    else v
  }

  /** `normalize_uec`: on an object, the three containers are made objects in place. */
  method NormalizeUec(card: Json) returns (r: Json)
    ensures r == NormalizedUec(card)
  {
    r := NormalizeValue(card);
    if r.Obj? {
      var root := r.fields;
      if !("app_specific_settings" in root && root["app_specific_settings"].Obj?) {
        root := root["app_specific_settings" := Obj(map[])];
      }
      if !("meta" in root && root["meta"].Obj?) {
        root := root["meta" := Obj(map[])];
      }
      if !("extensions" in root && root["extensions"].Obj?) {
        root := root["extensions" := Obj(map[])];
      }
      r := Obj(root);
    }
  }

  /**
   * On an object card the three containers are objects, an object already
   * there is kept, and every other key is as it was; anything else is
   * returned unchanged.
   */
  lemma NormalizedUecShape(card: Json)
    ensures !card.Obj? ==> NormalizedUec(card) == card
    ensures card.Obj? ==> (var out := NormalizedUec(card).fields;
      out.Keys == card.fields.Keys + ContainerKeys
      && (forall k :: k in ContainerKeys ==> out[k].Obj?)
      && (forall k :: k in ContainerKeys && k in card.fields && card.fields[k].Obj? ==> out[k] == card.fields[k])
      && (forall k :: k in card.fields && k !in ContainerKeys ==> out[k] == card.fields[k]))
  {
    if card.Obj? {
      var out := NormalizedUec(card).fields;
      assert "app_specific_settings" in out && "meta" in out && "extensions" in out;
    }
  }

  lemma NormalizeUecIdempotent(card: Json)
    ensures NormalizedUec(NormalizedUec(card)) == NormalizedUec(card)
  {
    if card.Obj? {
      NormalizedUecShape(card);
      var once := NormalizedUec(card);
      assert NormalizedUec(once) == once;
    }
  }

  // =====================================================================
  // parse_uec
  // =====================================================================

  /**
   * What the JSON parser made of the input: Python also accepts a value
   * that is not text at all. The parser itself is not part of this model.
   */
  datatype JsonText = NotText | Unparsable(reason: string) | Parsed(value: Json)

  datatype ParseValidationResult = ParseValidationResult(ok: bool, value: Option<Json>, errors: seq<string>)

  const NotTextEntry: string := "root: json input must be a string"

  function InvalidJsonEntry(reason: string): (r: string)
    ensures StartsWith(r, "root: invalid JSON (")
  {
    StartsWithConcat("root: invalid JSON (", reason + ")");
    "root: invalid JSON (" + (reason + ")")
  }

  /**
   * `parse_uec`: a single `root` error when the text is missing or does
   * not parse; otherwise the validation result, with the value only when
   * it validates.
   */
  method ParseUec(port: Port, input: JsonText, strict: bool) returns (r: ParseValidationResult)
    ensures input.NotText? ==> r == ParseValidationResult(false, None, [NotTextEntry])
    ensures input.Unparsable? ==> r == ParseValidationResult(false, None, [InvalidJsonEntry(input.reason)])
    ensures input.Parsed? ==> r.errors == UecErrors(port, input.value, strict)
    ensures input.Parsed? ==> (r.ok <==> r.errors == [])
    ensures r.value.Some? <==> r.ok
    ensures r.ok ==> input.Parsed? && r.value == Some(input.value)
  {
    match input
    case NotText =>
      return ParseValidationResult(false, None, [NotTextEntry]);
    case Unparsable(reason) =>
      return ParseValidationResult(false, None, [InvalidJsonEntry(reason)]);
    case Parsed(value) =>
      var result := ValidateUec(port, value, strict);
      if result.ok {
        r := ParseValidationResult(true, Some(value), []);
      } else {
        r := ParseValidationResult(false, None, result.errors);
      }
  }

  // =====================================================================
  // The source version read by upgrade and downgrade
  // =====================================================================

  const NoSchemaMessage: string := "card must be an object with a schema"

  /** The `AttributeError` Python raises calling `.get` on a value that is not a dict. */
  const NoGetAttribute: string := "AttributeError: object has no attribute 'get'"

  /** The error Python's `dict(..)` raises on a value it cannot iterate. */
  const NotIterable: string := "TypeError: object is not iterable"

  /** The error Python's `dict(..)` raises on a sequence element that is not of length 2. */
  const NotAPair: string := "ValueError: dictionary update sequence element has the wrong length; 2 is required"

  /** The error Python's `dict(..)` raises on a list or dict used as a key. */
  const UnhashableKey: string := "TypeError: unhashable type"

  /** A pair whose key is not a string: Python accepts it, but an object of this model cannot hold it. */
  const NonStringKey: string := "unsupported: dictionary key is not a string"

  function UnsupportedTarget(target: string): string {
    "unsupported target version: " + target
  }

  function UnsupportedSource(version: Json): string {
    "unsupported source version: " + PyStr(version)
  }

  /**
   * `schema.version` as read by the converters. Rust needs a string there
   * and fails otherwise; Python reads `card.get("schema", {}).get("version")`,
   * which fails on a non-dict card or schema and yields `Null` when the
   * schema or the version is missing.
   */
  function SourceVersion(port: Port, card: Json): (r: Result<Json, string>)
    ensures r.Ok? ==> card.Obj?
    ensures port == Rust ==> (r.Ok? ==> r.value.Str?) && (r.Err? ==> r.error == NoSchemaMessage)
    ensures port == Python ==> (r.Err? ==> r.error == NoGetAttribute)
    ensures r.Ok? && r.value != Null ==> ("schema" in card.fields && card.fields["schema"].Obj?
      && Get(card.fields["schema"].fields, "version") == Some(r.value))
  {
    if port == Rust then
      match AsString(Member(MemberOrNull(FieldsOrEmpty(card), "schema"), "version"))
      case Some(v) => Ok(Str(v))
      case None => Err(NoSchemaMessage)
    else if !card.Obj? then Err(NoGetAttribute)
    else if "schema" !in card.fields then Ok(Null)
    else if !card.fields["schema"].Obj? then Err(NoGetAttribute)
    else Ok(MemberOrNull(card.fields["schema"].fields, "version"))
  }

  // =====================================================================
  // downgrade_uec
  // =====================================================================

  datatype DowngradeResult = DowngradeResult(card: Json, warnings: seq<string>)

  /** An object under edit together with the warnings raised so far. */
  datatype Edited = Edited(fields: map<string, Json>, warnings: seq<string>)

  /** `selectedVariant` back to `selectedVariantId`, the zero becoming null. */
  function DowngradeSelection(port: Port, scene: map<string, Json>): (r: map<string, Json>)
    ensures "selectedVariant" !in scene ==> r == scene
    ensures "selectedVariant" in scene ==> ("selectedVariant" !in r && "selectedVariantId" in r
      && r["selectedVariantId"] == (if IsZeroSelection(port, scene["selectedVariant"]) then Null else scene["selectedVariant"]))
    ensures forall k :: k in scene && k != "selectedVariant" && k != "selectedVariantId" ==> k in r && r[k] == scene[k]
  {
    if "selectedVariant" in scene then
      var selected := scene["selectedVariant"];
      (scene - {"selectedVariant"})["selectedVariantId" := if IsZeroSelection(port, selected) then Null else selected]
    else scene
  }

  /**
   * The scene step: `scene` is always removed; an object scene comes back
   * as the one-element `scenes`, and its `id`, when the port sees one, as
   * `defaultSceneId`.
   */
  function DowngradeScene(port: Port, payload: map<string, Json>): map<string, Json> {
    if "scene" in payload && payload["scene"].Obj? then
      var scene := DowngradeSelection(port, payload["scene"].fields);
      var listed := (payload - {"scene"})["scenes" := Arr([Obj(scene)])];
      if Field(port, scene, "id").Some? then listed["defaultSceneId" := scene["id"]] else listed
    else payload - {"scene"}
  }

  const PromptWarning: string := "payload.promptTemplateId was mapped to v1 systemPrompt and then removed"

  /** Whether the template id is folded back into an empty `systemPrompt`. */
  predicate FoldsPrompt(port: Port, payload: map<string, Json>) {
    "promptTemplateId" in payload
    && Field(port, payload, "promptTemplateId").Some?
    && MemberOrNull(payload, "systemPrompt") == Null
    && (port == Python || payload["promptTemplateId"].Str?)
  }

  /**
   * The prompt step: `promptTemplateId` is always removed, with a warning
   * when the port sees a value there; it becomes `"_ID:<id>"` in an absent
   * or null `systemPrompt` (Rust only for a string id).
   */
  function DowngradePrompt(port: Port, payload: map<string, Json>): Edited {
    if "promptTemplateId" !in payload then Edited(payload, [])
    else
      var rest := payload - {"promptTemplateId"};
      var folded := if FoldsPrompt(port, payload)
        then rest["systemPrompt" := Str(IdPrefix + PyStr(payload["promptTemplateId"]))]
        else rest;
      Edited(folded, if Field(port, payload, "promptTemplateId").Some? then [PromptWarning] else [])
  }

  const V2OnlyFields: seq<string> := ["fallbackModelId", "nickname", "creator", "creatorNotes", "creatorNotesMultilingual", "source", "characterBook"]

  function RemovedFieldWarning(field: string): string {
    "payload." + field + " is not supported in v1 and was removed"
  }

  /** The removal loop over `fields`, each checked against the payload as the loop left it. */
  function DropFields(payload: map<string, Json>, fields: seq<string>): Edited
    decreases |fields|
  {
    if fields == [] then Edited(payload, [])
    else
      var prev := DropFields(payload, fields[..|fields| - 1]);
      var field := fields[|fields| - 1];
      if field in prev.fields then Edited(prev.fields - {field}, prev.warnings + [RemovedFieldWarning(field)])
      else prev
  }

  /** The warnings for those of `fields` the original payload has, in order. */
  ghost function PresentFieldWarnings(payload: map<string, Json>, fields: seq<string>): seq<string>
    decreases |fields|
  {
    if fields == [] then []
    else
      var last := fields[|fields| - 1];
      PresentFieldWarnings(payload, fields[..|fields| - 1]) + (if last in payload then [RemovedFieldWarning(last)] else [])
  }

  predicate Distinct(fields: seq<string>) {
    forall i, j :: 0 <= i < j < |fields| ==> fields[i] != fields[j]
  }

  /** `rules = []` unless asked to keep rules or the payload already has them. */
  function AddRules(payload: map<string, Json>, keepRules: bool): (r: map<string, Json>)
    ensures "rules" in payload ==> r == payload
    ensures "rules" !in payload ==> r == (if keepRules then payload else payload["rules" := Arr([])])
  {
    if !keepRules && "rules" !in payload then payload["rules" := Arr([])] else payload
  }

  /** The payload `downgrade_uec` produces from a v2 payload, with its warnings. */
  function DowngradedPayload(port: Port, payload: map<string, Json>, keepRules: bool): Edited {
    var prompted := DowngradePrompt(port, DowngradeScene(port, payload));
    var dropped := DropFields(prompted.fields, V2OnlyFields);
    Edited(AddRules(dropped.fields, keepRules), prompted.warnings + dropped.warnings)
  }

  function OriginalRemovedWarning(key: string): string {
    "meta." + key + " was removed for v1 compatibility"
  }

  /** `key` is removed; the warning comes when the port sees a value there. */
  function DropOriginal(port: Port, meta: Edited, key: string): Edited {
    if key in meta.fields then
      Edited(meta.fields - {key}, meta.warnings + (if Field(port, meta.fields, key).Some? then [OriginalRemovedWarning(key)] else []))
    else meta
  }

  function DowngradedMeta(port: Port, meta: map<string, Json>): Edited {
    DropOriginal(port, DropOriginal(port, DropOriginal(port, Edited(meta, []), "originalCreatedAt"), "originalUpdatedAt"), "originalSource")
  }

  /** A pair Python's `dict(..)` reads from one element of a sequence: a two-element list, string or dict. */
  function PyPair(e: Json): Result<(string, Json), string> {
    match e
    case Arr(items) =>
      if |items| != 2 then Err(NotAPair)
      else if items[0].Str? then Ok((items[0].s, items[1]))
      else if items[0].Arr? || items[0].Obj? then Err(UnhashableKey)
      else Err(NonStringKey)
    case Str(s) => if |s| != 2 then Err(NotAPair) else Ok(([s[0]], Str([s[1]])))
    case Obj(m) =>
      if |m.Keys| != 2 then Err(NotAPair)
      else var keys := SortedKeys(m.Keys); Ok((keys[0], Str(keys[1])))
    case _ => Err(NotIterable)
  }

  /** `dict(items)` for a list: the pairs inserted left to right, the first bad element failing. */
  function PairsDict(items: seq<Json>): Result<map<string, Json>, string> {
    if items == [] then Ok(map[])
    else match PairsDict(items[..|items| - 1])
      case Err(e) => Err(e)
      case Ok(m) =>
        match PyPair(items[|items| - 1])
        case Err(e) => Err(e)
        case Ok(pair) => Ok(m[pair.0 := pair.1])
  }

  /**
   * Python `dict(v)`: a dict is copied, a list or a string is read as a
   * sequence of pairs (so `[]` and `""` give `{}`), anything else fails.
   */
  function PyDict(v: Json): (r: Result<map<string, Json>, string>)
    ensures v.Obj? ==> r == Ok(v.fields)
    ensures v == Arr([]) || v == Str("") ==> r == Ok(map[])
    ensures v.Str? && v.s != "" ==> r.Err?
    ensures v.Null? || v.Bool? || v.Num? ==> r.Err?
  {
    match v
    case Obj(m) => Ok(m)
    case Arr(items) => PairsDict(items)
    case Str(s) => if s == "" then Ok(map[]) else Err(NotAPair)
    case _ => Err(NotIterable)
  }

  predicate PairWithKey(e: Json, k: string) {
    PyPair(e).Ok? && PyPair(e).value.0 == k
  }

  /** `dict` over a list succeeds exactly when every element is a pair. */
  lemma {:induction false} PairsDictOk(items: seq<Json>)
    ensures PairsDict(items).Ok? <==> forall i :: 0 <= i < |items| ==> PyPair(items[i]).Ok?
  {
    if items != [] {
      var n := |items| - 1;
      PairsDictOk(items[..n]);
      assert forall i :: 0 <= i < n ==> items[..n][i] == items[i];
    }
  }

  /** The keys of `dict` over a list are the keys of its pairs. */
  lemma {:induction false} PairsDictKeys(items: seq<Json>)
    requires PairsDict(items).Ok?
    ensures forall k :: k in PairsDict(items).value <==> exists i :: 0 <= i < |items| && PairWithKey(items[i], k)
  {
    if items != [] {
      var n := |items| - 1;
      var prefix := items[..n];
      PairsDictKeys(prefix);
      var m := PairsDict(prefix).value;
      var pair := PyPair(items[n]).value;
      assert PairWithKey(items[n], pair.0);
      forall k | k in m
        ensures exists i :: 0 <= i < |items| && PairWithKey(items[i], k)
      {
        var i :| 0 <= i < n && PairWithKey(prefix[i], k);
        assert prefix[i] == items[i];
      }
      forall k | exists i :: 0 <= i < |items| && PairWithKey(items[i], k)
        ensures k in PairsDict(items).value
      {
        var i :| 0 <= i < |items| && PairWithKey(items[i], k);
        if i < n {
          assert prefix[i] == items[i];
        }
      }
    }
  }

  /** Each key of `dict` over a list holds the value of the last pair that has it. */
  lemma {:induction false} PairsDictLastWins(items: seq<Json>, i: nat, k: string)
    requires PairsDict(items).Ok?
    requires i < |items| && PairWithKey(items[i], k)
    requires forall j :: i < j < |items| ==> !PairWithKey(items[j], k)
    ensures k in PairsDict(items).value && PairsDict(items).value[k] == PyPair(items[i]).value.1
  {
    var n := |items| - 1;
    if i < n {
      var prefix := items[..n];
      assert prefix[i] == items[i];
      forall j | i < j < |prefix|
        ensures !PairWithKey(prefix[j], k)
      {
        assert prefix[j] == items[j];
      }
      PairsDictLastWins(prefix, i, k);
      assert !PairWithKey(items[n], k);
    }
  }

  /**
   * The object under `key` that downgrade edits: in Rust an object there,
   * or none; in Python `dict(card.get(key, {}))`.
   */
  function EditableObject(port: Port, card: map<string, Json>, key: string): (r: Result<Option<map<string, Json>>, string>)
    ensures port == Rust ==> r.Ok? && (r.value.Some? <==> key in card && card[key].Obj?)
    ensures key in card && card[key].Obj? ==> r == Ok(Some(card[key].fields))
    ensures port == Python && key !in card ==> r == Ok(Some(map[]))
    ensures port == Python && key in card ==> (r.Ok? <==> PyDict(card[key]).Ok?)
    ensures port == Python && key in card && r.Ok? ==> r.value == Some(PyDict(card[key]).value)
  {
    if key in card && card[key].Obj? then Ok(Some(card[key].fields))
    else if port == Rust then Ok(None)
    else if key !in card then Ok(Some(map[]))
    else match PyDict(card[key])
      case Err(e) => Err(e)
      case Ok(m) => Ok(Some(m))
  }

  /** The downgrade of a card whose schema is an object announcing "2.0". */
  function DowngradeV2(port: Port, card: map<string, Json>, keepRules: bool): Result<DowngradeResult, string>
    requires "schema" in card && card["schema"].Obj?
  {
    var withSchema := card["schema" := Obj(card["schema"].fields["version" := Str(SchemaVersion)])];
    match EditableObject(port, card, "payload")
    case Err(e) => Err(e)
    case Ok(payload) =>
      var edited := if payload.Some? then DowngradedPayload(port, payload.value, keepRules) else Edited(map[], []);
      var withPayload := if payload.Some? then withSchema["payload" := Obj(edited.fields)] else withSchema;
      match EditableObject(port, card, "meta")
      case Err(e) => Err(e)
      case Ok(meta) =>
        var metaEdited := if meta.Some? then DowngradedMeta(port, meta.value) else Edited(map[], []);
        var out := if meta.Some? then withPayload["meta" := Obj(metaEdited.fields)] else withPayload;
        Ok(DowngradeResult(Obj(out), edited.warnings + metaEdited.warnings))
  }

  /** The outcome of `downgrade_uec`. */
  function Downgrade(port: Port, card: Json, target: string, keepRules: bool): Result<DowngradeResult, string> {
    if target != SchemaVersion then Err(UnsupportedTarget(target))
    else match SourceVersion(port, card)
      case Err(e) => Err(e)
      case Ok(version) =>
        if version == Str(SchemaVersion) then Ok(DowngradeResult(NormalizedUec(card), []))
        else if version != Str(SchemaVersionV2) then Err(UnsupportedSource(version))
        else DowngradeV2(port, card.fields, keepRules)
  }

  // --- the imperative steps --------------------------------------------

  method DowngradeSceneStep(port: Port, payload: map<string, Json>) returns (next: map<string, Json>)
    ensures next == DowngradeScene(port, payload)
  {
    next := payload - {"scene"};
    if "scene" in payload && payload["scene"].Obj? {
      var scene := payload["scene"].fields;
      if "selectedVariant" in scene {
        var selected := scene["selectedVariant"];
        scene := scene - {"selectedVariant"};
        scene := scene["selectedVariantId" := if IsZeroSelection(port, selected) then Null else selected];
      }
      var sceneId := Field(port, scene, "id");
      next := next["scenes" := Arr([Obj(scene)])];
      if sceneId.Some? {
        next := next["defaultSceneId" := sceneId.value];
      }
    }
  }

  method DowngradePromptStep(port: Port, payload: map<string, Json>) returns (next: map<string, Json>, warnings: seq<string>)
    ensures Edited(next, warnings) == DowngradePrompt(port, payload)
  {
    next := payload;
    warnings := [];
    if "promptTemplateId" in next {
      var templateId := next["promptTemplateId"];
      var seen := Field(port, next, "promptTemplateId");
      next := next - {"promptTemplateId"};
      if seen.Some? {
        if MemberOrNull(next, "systemPrompt") == Null && (port == Python || templateId.Str?) {
          next := next["systemPrompt" := Str(IdPrefix + PyStr(templateId))];
        }
        warnings := [PromptWarning];
      }
    }
  }

  lemma DropFieldsStep(payload: map<string, Json>, fields: seq<string>, i: nat)
    requires i < |fields|
    ensures fields[..i + 1][..i] == fields[..i]
    ensures DropFields(payload, fields[..i + 1]) == (var prev := DropFields(payload, fields[..i]);
      if fields[i] in prev.fields then Edited(prev.fields - {fields[i]}, prev.warnings + [RemovedFieldWarning(fields[i])]) else prev)
  {
    assert fields[..i + 1][..i] == fields[..i];
  }

  /** The removal loop over the v2-only fields. */
  method DropV2Fields(payload: map<string, Json>) returns (next: map<string, Json>, warnings: seq<string>)
    ensures Edited(next, warnings) == DropFields(payload, V2OnlyFields)
  {
    next := payload;
    warnings := [];
    var i := 0;
    while i < |V2OnlyFields|
      invariant 0 <= i <= |V2OnlyFields|
      invariant Edited(next, warnings) == DropFields(payload, V2OnlyFields[..i])
    {
      DropFieldsStep(payload, V2OnlyFields, i);
      var field := V2OnlyFields[i];
      if field in next {
        next := next - {field};
        warnings := warnings + [RemovedFieldWarning(field)];
      }
      i := i + 1;
    }
    assert V2OnlyFields[..|V2OnlyFields|] == V2OnlyFields;
  }

  method DowngradePayload(port: Port, payload: map<string, Json>, keepRules: bool) returns (next: map<string, Json>, warnings: seq<string>)
    ensures Edited(next, warnings) == DowngradedPayload(port, payload, keepRules)
  {
    next := DowngradeSceneStep(port, payload);
    var promptWarnings;
    next, promptWarnings := DowngradePromptStep(port, next);
    var removed;
    next, removed := DropV2Fields(next);
    if !keepRules && "rules" !in next {
      next := next["rules" := Arr([])];
    }
    warnings := promptWarnings + removed;
  }

  method DowngradeMeta(port: Port, meta: map<string, Json>) returns (next: map<string, Json>, warnings: seq<string>)
    ensures Edited(next, warnings) == DowngradedMeta(port, meta)
  {
    next := meta;
    warnings := [];
    if "originalCreatedAt" in next {
      if Field(port, next, "originalCreatedAt").Some? {
        warnings := warnings + [OriginalRemovedWarning("originalCreatedAt")];
      }
      next := next - {"originalCreatedAt"};
    }
    if "originalUpdatedAt" in next {
      if Field(port, next, "originalUpdatedAt").Some? {
        warnings := warnings + [OriginalRemovedWarning("originalUpdatedAt")];
      }
      next := next - {"originalUpdatedAt"};
    }
    if "originalSource" in next {
      if Field(port, next, "originalSource").Some? {
        warnings := warnings + [OriginalRemovedWarning("originalSource")];
      }
      next := next - {"originalSource"};
    }
  }

  /** The v2 branch of `downgrade_uec`, editing a copy of the card. */
  method DowngradeCardV2(port: Port, card: map<string, Json>, keepRules: bool) returns (r: Result<DowngradeResult, string>)
    requires "schema" in card && card["schema"].Obj?
    ensures r == DowngradeV2(port, card, keepRules)
  {
    var next := card["schema" := Obj(card["schema"].fields["version" := Str(SchemaVersion)])];
    var payload := EditableObject(port, card, "payload");
    if payload.Err? {
      return Err(payload.error);
    }
    var warnings := [];
    if payload.value.Some? {
      var edited;
      edited, warnings := DowngradePayload(port, payload.value.value, keepRules);
      next := next["payload" := Obj(edited)];
    }
    var meta := EditableObject(port, card, "meta");
    if meta.Err? {
      return Err(meta.error);
    }
    var metaWarnings := [];
    if meta.value.Some? {
      var edited;
      edited, metaWarnings := DowngradeMeta(port, meta.value.value);
      next := next["meta" := Obj(edited)];
    }
    r := Ok(DowngradeResult(Obj(next), warnings + metaWarnings));
  }

  /** `downgrade_uec`. */
  method DowngradeUec(port: Port, card: Json, target: string, keepRules: bool) returns (r: Result<DowngradeResult, string>)
    ensures r == Downgrade(port, card, target, keepRules)
  {
    if target != SchemaVersion {
      return Err(UnsupportedTarget(target));
    }
    var version := SourceVersion(port, card);
    if version.Err? {
      return Err(version.error);
    }
    if version.value == Str(SchemaVersion) {
      var normalized := NormalizeUec(card);
      return Ok(DowngradeResult(normalized, []));
    }
    if version.value != Str(SchemaVersionV2) {
      return Err(UnsupportedSource(version.value));
    }
    r := DowngradeCardV2(port, card.fields, keepRules);
  }

  // =====================================================================
  // upgrade_uec
  // =====================================================================

  /**
   * `upgrade_uec`: to "2.0" a v2 card is normalised and a v1 card
   * converted; to "1.0" it is `downgrade_uec` without `keep_rules`.
   */
  method UpgradeUec(port: Port, card: Json, target: string) returns (r: Result<Json, string>)
    ensures SourceVersion(port, card).Err? ==> r == Err(SourceVersion(port, card).error)
    ensures SourceVersion(port, card).Ok? && target == SchemaVersionV2 ==> (var version := SourceVersion(port, card).value;
      r == if version == Str(SchemaVersionV2) then Ok(NormalizedUec(card))
           else if version == Str(SchemaVersion) then ConvertOutcome(port, card)
           else Err(UnsupportedSource(version)))
    ensures SourceVersion(port, card).Ok? && target == SchemaVersion ==>
      r == match Downgrade(port, card, SchemaVersion, false) case Ok(d) => Ok(d.card) case Err(e) => Err(e)
    ensures SourceVersion(port, card).Ok? && target != SchemaVersion && target != SchemaVersionV2 ==>
      r == Err(UnsupportedTarget(target))
  {
    var version := SourceVersion(port, card);
    if version.Err? {
      return Err(version.error);
    }
    if target == SchemaVersionV2 {
      if version.value == Str(SchemaVersionV2) {
        var normalized := NormalizeUec(card);
        r := Ok(normalized);
      } else if version.value == Str(SchemaVersion) {
        r := ConvertV1ToV2(port, card);
      } else {
        r := Err(UnsupportedSource(version.value));
      }
    } else if target == SchemaVersion {
      var downgraded := DowngradeUec(port, card, SchemaVersion, false);
      r := match downgraded case Ok(d) => Ok(d.card) case Err(e) => Err(e);
    } else {
      r := Err(UnsupportedTarget(target));
    }
  }

  // =====================================================================
  // Properties of downgrade
  // =====================================================================

  /** The error cases, in the order they are checked, and the same-version shortcut. */
  lemma DowngradeGuards(port: Port, card: Json, target: string, keepRules: bool)
    ensures target != SchemaVersion ==> Downgrade(port, card, target, keepRules) == Err(UnsupportedTarget(target))
    ensures target == SchemaVersion && port == Rust && SourceVersion(port, card).Err?
      ==> Downgrade(port, card, target, keepRules) == Err(NoSchemaMessage)
    ensures target == SchemaVersion && SourceVersion(port, card) == Ok(Str(SchemaVersion))
      ==> Downgrade(port, card, target, keepRules) == Ok(DowngradeResult(NormalizedUec(card), []))
    ensures target == SchemaVersion && SourceVersion(port, card).Ok?
      && SourceVersion(port, card).value != Str(SchemaVersion) && SourceVersion(port, card).value != Str(SchemaVersionV2)
      ==> Downgrade(port, card, target, keepRules).Err?
    ensures port == Rust && Downgrade(port, card, target, keepRules).Ok? ==> target == SchemaVersion && SourceVersion(port, card).Ok?
  {
  }

  /** A v2 card downgrades in Rust, and in Python when `dict` accepts its payload and meta or they are absent. */
  lemma DowngradeV2Succeeds(port: Port, card: map<string, Json>, keepRules: bool)
    requires "schema" in card && card["schema"].Obj?
    requires port == Python ==> ("payload" !in card || PyDict(card["payload"]).Ok?) && ("meta" !in card || PyDict(card["meta"]).Ok?)
    ensures DowngradeV2(port, card, keepRules).Ok?
    ensures var out := DowngradeV2(port, card, keepRules).value.card;
      out.Obj? && "schema" in out.fields && out.fields["schema"].Obj?
      && Get(out.fields["schema"].fields, "version") == Some(Str(SchemaVersion))
  {
  }

  /**
   * An empty list or string as `payload` or `meta`: Python copies it into
   * an empty dict and downgrades that, Rust leaves the section as it is.
   */
  lemma DowngradeEmptySections(schema: map<string, Json>, payload: Json, meta: Json, keepRules: bool)
    requires payload == Arr([]) || payload == Str("")
    requires meta == Arr([]) || meta == Str("")
    ensures var card := map["schema" := Obj(schema), "payload" := payload, "meta" := meta];
      var schemaOut := Obj(schema["version" := Str(SchemaVersion)]);
      DowngradeV2(Python, card, keepRules)
        == Ok(DowngradeResult(Obj(map["schema" := schemaOut,
                                      "payload" := Obj(if keepRules then map[] else map["rules" := Arr([])]),
                                      "meta" := Obj(map[])]), []))
      && DowngradeV2(Rust, card, keepRules)
        == Ok(DowngradeResult(Obj(map["schema" := schemaOut, "payload" := payload, "meta" := meta]), []))
  {
    var card := map["schema" := Obj(schema), "payload" := payload, "meta" := meta];
    assert EditableObject(Python, card, "payload") == Ok(Some(map[]));
    assert EditableObject(Python, card, "meta") == Ok(Some(map[]));
    DropFieldsEmpty(V2OnlyFields);
    var payloadOut := if keepRules then map[] else map["rules" := Arr([])];
    assert DowngradedPayload(Python, map[], keepRules) == Edited(payloadOut, []);
    assert DowngradedMeta(Python, map[]) == Edited(map[], []);
    var withSchema := card["schema" := Obj(card["schema"].fields["version" := Str(SchemaVersion)])];
    assert withSchema["payload" := Obj(payloadOut)]["meta" := Obj(map[])]
      == map["schema" := Obj(schema["version" := Str(SchemaVersion)]), "payload" := Obj(payloadOut), "meta" := Obj(map[])];
    assert withSchema == map["schema" := Obj(schema["version" := Str(SchemaVersion)]), "payload" := payload, "meta" := meta];
  }

  lemma {:induction false} DropFieldsEmpty(fields: seq<string>)
    ensures DropFields(map[], fields) == Edited(map[], [])
    decreases |fields|
  {
    if fields != [] {
      DropFieldsEmpty(fields[..|fields| - 1]);
    }
  }

  /** Python always leaves an object `meta`; Rust leaves `meta` alone unless it is one. */
  lemma DowngradeMetaShape(port: Port, card: map<string, Json>, keepRules: bool)
    requires "schema" in card && card["schema"].Obj?
    requires DowngradeV2(port, card, keepRules).Ok?
    ensures var out := DowngradeV2(port, card, keepRules).value.card;
      port == Python ==> out.Obj? && "meta" in out.fields && out.fields["meta"].Obj?
    ensures var out := DowngradeV2(port, card, keepRules).value.card;
      port == Rust && !("meta" in card && card["meta"].Obj?) ==> out.Obj? && Get(out.fields, "meta") == Get(card, "meta")
  {
  }

  /** The scene step as the v1 layout wants it. */
  lemma DowngradeSceneShape(port: Port, payload: map<string, Json>)
    ensures "scene" !in DowngradeScene(port, payload)
    ensures "scene" in payload && payload["scene"].Obj? ==> (var out := DowngradeScene(port, payload);
      var scene := DowngradeSelection(port, payload["scene"].fields);
      "scenes" in out && out["scenes"] == Arr([Obj(scene)])
      && (Field(port, payload["scene"].fields, "id").Some? ==> "defaultSceneId" in out && out["defaultSceneId"] == payload["scene"].fields["id"])
      && (Field(port, payload["scene"].fields, "id").None? ==> Get(out, "defaultSceneId") == Get(payload, "defaultSceneId")))
    ensures !("scene" in payload && payload["scene"].Obj?) ==> DowngradeScene(port, payload) == payload - {"scene"}
  {
    if "scene" in payload && payload["scene"].Obj? {
      var scene := DowngradeSelection(port, payload["scene"].fields);
      assert Field(port, scene, "id") == Field(port, payload["scene"].fields, "id");
    }
  }

  /** Where the ports differ: a null scene id is copied by Rust only, a `false` selection is a zero for Python only. */
  lemma DowngradeScenePorts(payload: map<string, Json>)
    requires "scene" in payload && payload["scene"].Obj?
    requires "id" in payload["scene"].fields && payload["scene"].fields["id"] == Null
    requires "selectedVariant" in payload["scene"].fields && payload["scene"].fields["selectedVariant"] == Bool(false)
    ensures var out := DowngradeScene(Rust, payload);
      "defaultSceneId" in out && out["defaultSceneId"] == Null
      && out["scenes"].items[0].fields["selectedVariantId"] == Bool(false)
    ensures var out := DowngradeScene(Python, payload);
      Get(out, "defaultSceneId") == Get(payload, "defaultSceneId")
      && out["scenes"].items[0].fields["selectedVariantId"] == Null
  {
    DowngradeSceneShape(Rust, payload);
    DowngradeSceneShape(Python, payload);
  }

  /**
   * `promptTemplateId` never survives; it warns exactly when the port sees
   * a value; `systemPrompt` is only ever filled where it was absent or
   * null, and an existing prompt (even `""`) is kept.
   */
  lemma DowngradePromptRules(port: Port, payload: map<string, Json>)
    ensures var out := DowngradePrompt(port, payload);
      "promptTemplateId" !in out.fields
      && (out.warnings == [PromptWarning] <==> Field(port, payload, "promptTemplateId").Some?)
      && (out.warnings == [] <==> Field(port, payload, "promptTemplateId").None?)
    ensures var out := DowngradePrompt(port, payload);
      MemberOrNull(payload, "systemPrompt") != Null ==> out.fields["systemPrompt"] == payload["systemPrompt"]
    ensures var out := DowngradePrompt(port, payload);
      FoldsPrompt(port, payload) ==> out.fields["systemPrompt"] == Str(IdPrefix + PyStr(payload["promptTemplateId"]))
    ensures var out := DowngradePrompt(port, payload);
      !FoldsPrompt(port, payload) ==> Get(out.fields, "systemPrompt") == Get(payload, "systemPrompt")
    ensures var out := DowngradePrompt(port, payload);
      forall k :: k in payload && k != "promptTemplateId" && k != "systemPrompt" ==> k in out.fields && out.fields[k] == payload[k]
  {
  }

  /** Rust folds only a string template id; Python folds any value that is not null. */
  lemma DowngradePromptPorts(payload: map<string, Json>, n: int)
    requires "promptTemplateId" in payload && payload["promptTemplateId"] == Num(n)
    requires "systemPrompt" !in payload
    ensures "systemPrompt" !in DowngradePrompt(Rust, payload).fields
    ensures DowngradePrompt(Python, payload).fields["systemPrompt"] == Str(IdPrefix + IntToString(n))
    ensures DowngradePrompt(Rust, payload).warnings == DowngradePrompt(Python, payload).warnings == [PromptWarning]
  {
  }

  lemma {:induction false} DropFieldsRemoves(payload: map<string, Json>, fields: seq<string>)
    requires Distinct(fields)
    ensures var out := DropFields(payload, fields);
      (forall k :: k in out.fields <==> k in payload && k !in fields)
      && (forall k :: k in out.fields ==> out.fields[k] == payload[k])
      && out.warnings == PresentFieldWarnings(payload, fields)
    decreases |fields|
  {
    if fields != [] {
      var init := fields[..|fields| - 1];
      assert Distinct(init);
      DropFieldsRemoves(payload, init);
      var field := fields[|fields| - 1];
      assert field !in init;
      var out := DropFields(payload, fields);
      forall k
        ensures k in out.fields <==> k in payload && k !in fields
      {
        assert k in fields <==> k in init || k == field;
      }
    }
  }

  lemma {:induction false} PresentFieldWarningsCount(payload: map<string, Json>, fields: seq<string>, field: string)
    requires Distinct(fields)
    requires forall i :: 0 <= i < |fields| ==> RemovedFieldWarning(fields[i]) == RemovedFieldWarning(field) ==> fields[i] == field
    ensures multiset(PresentFieldWarnings(payload, fields))[RemovedFieldWarning(field)]
      == if field in fields && field in payload then 1 else 0
    decreases |fields|
  {
    if fields != [] {
      var init := fields[..|fields| - 1];
      assert Distinct(init);
      assert forall i :: 0 <= i < |init| ==> init[i] == fields[i];
      PresentFieldWarningsCount(payload, init, field);
      assert field in fields <==> field in init || field == fields[|fields| - 1];
      if field == fields[|fields| - 1] {
        assert field !in init;
      }
    }
  }

  lemma RemovedFieldWarningInjective(f: string, g: string)
    requires RemovedFieldWarning(f) == RemovedFieldWarning(g)
    ensures f == g
  {
    var tail := " is not supported in v1 and was removed";
    assert |f| == |g|;
    assert RemovedFieldWarning(f) == "payload." + f + tail;
    assert ("payload." + f + tail)[8..8 + |f|] == f;
    assert ("payload." + g + tail)[8..8 + |g|] == g;
  }

  /**
   * Each v2-only payload field is gone afterwards, and the loop warns
   * exactly once for each of them the payload had.
   */
  lemma DowngradeRemovesV2Fields(payload: map<string, Json>)
    ensures var out := DropFields(payload, V2OnlyFields);
      (forall k :: k in out.fields <==> k in payload && k !in V2OnlyFields)
      && (forall k :: k in out.fields ==> out.fields[k] == payload[k])
    ensures var out := DropFields(payload, V2OnlyFields);
      forall i :: 0 <= i < |V2OnlyFields| ==>
        multiset(out.warnings)[RemovedFieldWarning(V2OnlyFields[i])] == if V2OnlyFields[i] in payload then 1 else 0
  {
    assert Distinct(V2OnlyFields);
    DropFieldsRemoves(payload, V2OnlyFields);
    forall i | 0 <= i < |V2OnlyFields|
      ensures multiset(DropFields(payload, V2OnlyFields).warnings)[RemovedFieldWarning(V2OnlyFields[i])]
        == if V2OnlyFields[i] in payload then 1 else 0
    {
      forall j | 0 <= j < |V2OnlyFields| && RemovedFieldWarning(V2OnlyFields[j]) == RemovedFieldWarning(V2OnlyFields[i])
        ensures V2OnlyFields[j] == V2OnlyFields[i]
      {
        RemovedFieldWarningInjective(V2OnlyFields[j], V2OnlyFields[i]);
      }
      PresentFieldWarningsCount(payload, V2OnlyFields, V2OnlyFields[i]);
    }
  }

  /** `rules` is kept when present and added empty only without `keep_rules`. */
  lemma DowngradeRulesRule(port: Port, payload: map<string, Json>, keepRules: bool)
    ensures var out := DowngradedPayload(port, payload, keepRules).fields;
      ("rules" in out <==> "rules" in payload || !keepRules)
      && ("rules" in payload ==> out["rules"] == payload["rules"])
      && ("rules" !in payload && !keepRules ==> out["rules"] == Arr([]))
  {
    var scened := DowngradeScene(port, payload);
    assert Get(scened, "rules") == Get(payload, "rules");
    var prompted := DowngradePrompt(port, scened);
    DowngradePromptRules(port, scened);
    assert Get(prompted.fields, "rules") == Get(payload, "rules");
    var dropped := DropFields(prompted.fields, V2OnlyFields);
    DowngradeRemovesV2Fields(prompted.fields);
    assert "rules" !in V2OnlyFields;
    assert Get(dropped.fields, "rules") == Get(payload, "rules");
  }

  lemma DropOriginalRule(port: Port, meta: Edited, key: string)
    ensures var out := DropOriginal(port, meta, key);
      key !in out.fields
      && (forall k :: k in meta.fields && k != key ==> k in out.fields && out.fields[k] == meta.fields[k])
      && (forall k :: k in out.fields ==> k in meta.fields)
      && out.warnings == meta.warnings + (if Field(port, meta.fields, key).Some? then [OriginalRemovedWarning(key)] else [])
  {
  }

  /** The three provenance fields are gone, each warned about when the port sees a value. */
  lemma DowngradeMetaRule(port: Port, meta: map<string, Json>)
    ensures var out := DowngradedMeta(port, meta);
      "originalCreatedAt" !in out.fields && "originalUpdatedAt" !in out.fields && "originalSource" !in out.fields
      && (forall k :: k in meta && k !in {"originalCreatedAt", "originalUpdatedAt", "originalSource"} ==> k in out.fields && out.fields[k] == meta[k])
    ensures var out := DowngradedMeta(port, meta);
      out.warnings
        == (if Field(port, meta, "originalCreatedAt").Some? then [OriginalRemovedWarning("originalCreatedAt")] else [])
         + (if Field(port, meta, "originalUpdatedAt").Some? then [OriginalRemovedWarning("originalUpdatedAt")] else [])
         + (if Field(port, meta, "originalSource").Some? then [OriginalRemovedWarning("originalSource")] else [])
  {
    var first := DropOriginal(port, Edited(meta, []), "originalCreatedAt");
    DropOriginalRule(port, Edited(meta, []), "originalCreatedAt");
    var second := DropOriginal(port, first, "originalUpdatedAt");
    DropOriginalRule(port, first, "originalUpdatedAt");
    DropOriginalRule(port, second, "originalSource");
    assert Field(port, first.fields, "originalUpdatedAt") == Field(port, meta, "originalUpdatedAt");
    assert Field(port, second.fields, "originalSource") == Field(port, meta, "originalSource");
  }
}

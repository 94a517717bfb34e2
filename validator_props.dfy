/**
 * Properties of the UEC validator, stated on the specification functions
 * of module `Validators` (and so on what `ValidateUec` returns).
 */
module ValidatorProperties {
  import opened JsonModel
  import opened Utils
  import opened Validators

  // =====================================================================
  // Subsequences: strict mode only adds errors
  // =====================================================================

  /** `sub` is `full` with some entries left out and the rest kept in order. */
  ghost predicate Subsequence(sub: seq<string>, full: seq<string>)
    decreases |full|
  {
    if full == [] then sub == []
    else (sub != [] && sub[0] == full[0] && Subsequence(sub[1..], full[1..])) || Subsequence(sub, full[1..])
  }

  lemma {:induction false} SubsequenceRefl(s: seq<string>)
    ensures Subsequence(s, s)
    decreases |s|
  {
    if s != [] {
      SubsequenceRefl(s[1..]);
    }
  }

  lemma {:induction false} SubsequenceEmpty(s: seq<string>)
    ensures Subsequence([], s)
    decreases |s|
  {
    if s != [] {
      SubsequenceEmpty(s[1..]);
    }
  }

  lemma {:induction false} SubsequenceConcat(a1: seq<string>, b1: seq<string>, a2: seq<string>, b2: seq<string>)
    requires Subsequence(a1, b1) && Subsequence(a2, b2)
    ensures Subsequence(a1 + a2, b1 + b2)
    decreases |b1|
  {
    if b1 == [] {
      assert a1 + a2 == a2 && b1 + b2 == b2;
    } else {
      assert (b1 + b2)[1..] == b1[1..] + b2;
      if a1 != [] && a1[0] == b1[0] && Subsequence(a1[1..], b1[1..]) {
        SubsequenceConcat(a1[1..], b1[1..], a2, b2);
        assert (a1 + a2)[1..] == a1[1..] + a2;
      } else {
        SubsequenceConcat(a1, b1[1..], a2, b2);
      }
    }
  }

  /** Every entry of a subsequence is an entry of the whole. */
  lemma {:induction false} SubsequenceMembers(sub: seq<string>, full: seq<string>)
    requires Subsequence(sub, full)
    ensures forall e :: e in sub ==> e in full
    decreases |full|
  {
    if full != [] {
      if sub != [] && sub[0] == full[0] && Subsequence(sub[1..], full[1..]) {
        SubsequenceMembers(sub[1..], full[1..]);
        assert sub == [sub[0]] + sub[1..];
      } else {
        SubsequenceMembers(sub, full[1..]);
      }
    }
  }

  /** A common prefix and a growing tail: `p + a` within `p + b`. */
  lemma SubsequenceTail(p: seq<string>, a: seq<string>, b: seq<string>)
    requires Subsequence(a, b)
    ensures Subsequence(p + a, p + b)
  {
    SubsequenceRefl(p);
    SubsequenceConcat(p, p, a, b);
  }

  /** A growing middle part: `a + q` within `b + q`. */
  lemma SubsequenceHead(a: seq<string>, b: seq<string>, q: seq<string>)
    requires Subsequence(a, b)
    ensures Subsequence(a + q, b + q)
  {
    SubsequenceRefl(q);
    SubsequenceConcat(a, b, q, q);
  }

  lemma SceneBaseStrictAdds(port: Port, scene: Json, path: string)
    ensures Subsequence(SceneBaseErrors(port, scene, path, false), SceneBaseErrors(port, scene, path, true))
  {
    if scene.Obj? {
      var m := scene.fields;
      SubsequenceEmpty(SceneStrictErrors(port, m, path, true));
      var common := Check(SomeString(Field(port, m, "id")), path + ".id", "must be a string")
        + Check(SomeString(Field(port, m, "content")), path + ".content", "must be a string")
        + Check(OptionalString(Field(port, m, "direction")), path + ".direction", "must be a string")
        + Check(OptionalNumber(Field(port, m, "createdAt")), path + ".createdAt", "must be a number")
        + VariantsFieldErrors(port, Field(port, m, "variants"), path);
      SubsequenceTail(common, [], SceneStrictErrors(port, m, path, true));
      assert common + [] == common;
    } else {
      SubsequenceRefl(SceneBaseErrors(port, scene, path, false));
    }
  }

  lemma SceneV1StrictAdds(port: Port, scene: Json, path: string)
    ensures Subsequence(SceneV1Errors(port, scene, path, false), SceneV1Errors(port, scene, path, true))
  {
    SceneBaseStrictAdds(port, scene, path);
    SubsequenceHead(SceneBaseErrors(port, scene, path, false), SceneBaseErrors(port, scene, path, true),
      if scene.Obj? then
        Check(OptionalString(Field(port, scene.fields, "selectedVariantId")), path + ".selectedVariantId", "must be a string or null")
      else []);
  }

  lemma SceneV2StrictAdds(port: Port, scene: Json, path: string)
    ensures Subsequence(SceneV2Errors(port, scene, path, false), SceneV2Errors(port, scene, path, true))
  {
    SceneBaseStrictAdds(port, scene, path);
    SubsequenceHead(SceneBaseErrors(port, scene, path, false), SceneBaseErrors(port, scene, path, true),
      if scene.Obj? then
        Check(SelectedVariantOk(port, Field(port, scene.fields, "selectedVariant")), path + ".selectedVariant", "must be 0 or a variant ID string")
      else []);
  }

  lemma {:induction false} SceneListStrictAdds(port: Port, scenes: seq<Json>)
    ensures Subsequence(SceneListErrors(port, scenes, false), SceneListErrors(port, scenes, true))
    decreases |scenes|
  {
    if scenes == [] {
      SubsequenceRefl([]);
    } else {
      var init := scenes[..|scenes| - 1];
      var path := IndexPath(ScenesPath, |scenes| - 1);
      SceneListStrictAdds(port, init);
      SceneV1StrictAdds(port, Last(scenes), path);
      SubsequenceConcat(SceneListErrors(port, init, false), SceneListErrors(port, init, true),
        SceneV1Errors(port, Last(scenes), path, false), SceneV1Errors(port, Last(scenes), path, true));
    }
  }

  lemma ScenesFieldStrictAdds(port: Port, scenes: Option<Json>)
    ensures Subsequence(ScenesFieldErrors(port, scenes, false), ScenesFieldErrors(port, scenes, true))
  {
    if scenes.Some? && scenes.value.Arr? {
      SceneListStrictAdds(port, scenes.value.items);
    } else {
      SubsequenceRefl(ScenesFieldErrors(port, scenes, false));
    }
  }

  lemma CharacterV1BodyStrictAdds(port: Port, m: map<string, Json>)
    ensures Subsequence(CharacterV1BodyErrors(port, m, false), CharacterV1BodyErrors(port, m, true))
  {
    var head := Check(OptionalString(Field(port, m, "avatar")), "payload.avatar", "must be a string or null")
      + Check(OptionalString(Field(port, m, "chatBackground")), "payload.chatBackground", "must be a string or null")
      + Check(OptionalStringArray(Field(port, m, "rules")), "payload.rules", "must be an array of strings");
    var c5 := Check(OptionalString(Field(port, m, "defaultSceneId")), "payload.defaultSceneId", "must be a string or null");
    var c6 := Check(OptionalString(Field(port, m, "defaultModelId")), "payload.defaultModelId", "must be a string or null");
    var c7 := Check(OptionalString(Field(port, m, "systemPrompt")), "payload.systemPrompt", "must be a string or null");
    var c8 := VoiceConfigV1Errors(port, Field(port, m, "voiceConfig"));
    var c9 := Check(OptionalBoolean(Field(port, m, "voiceAutoplay")), "payload.voiceAutoplay", "must be a boolean");
    var lax := ScenesFieldErrors(port, Field(port, m, "scenes"), false);
    var strict := ScenesFieldErrors(port, Field(port, m, "scenes"), true);
    ScenesFieldStrictAdds(port, Field(port, m, "scenes"));
    SubsequenceTail(head, lax, strict);
    SubsequenceHead(head + lax, head + strict, c5);
    SubsequenceHead(head + lax + c5, head + strict + c5, c6);
    SubsequenceHead(head + lax + c5 + c6, head + strict + c5 + c6, c7);
    SubsequenceHead(head + lax + c5 + c6 + c7, head + strict + c5 + c6 + c7, c8);
    SubsequenceHead(head + lax + c5 + c6 + c7 + c8, head + strict + c5 + c6 + c7 + c8, c9);
  }

  lemma CharacterPayloadV1StrictAdds(port: Port, payload: Json)
    ensures Subsequence(CharacterPayloadV1Errors(port, payload, false), CharacterPayloadV1Errors(port, payload, true))
  {
    if payload.Obj? {
      var m := payload.fields;
      CharacterV1BodyStrictAdds(port, m);
      SubsequenceTail(CharacterIdentityErrors(port, m), CharacterV1BodyErrors(port, m, false), CharacterV1BodyErrors(port, m, true));
      SubsequenceHead(CharacterIdentityErrors(port, m) + CharacterV1BodyErrors(port, m, false),
        CharacterIdentityErrors(port, m) + CharacterV1BodyErrors(port, m, true), TimestampErrors(port, m));
      SubsequenceEmpty(CharacterV1StrictErrors(port, m, true));
      SubsequenceConcat(
        CharacterIdentityErrors(port, m) + CharacterV1BodyErrors(port, m, false) + TimestampErrors(port, m),
        CharacterIdentityErrors(port, m) + CharacterV1BodyErrors(port, m, true) + TimestampErrors(port, m),
        [], CharacterV1StrictErrors(port, m, true));
      assert CharacterV1StrictErrors(port, m, false) == [];
    } else {
      SubsequenceRefl(CharacterPayloadV1Errors(port, payload, false));
    }
  }

  /** A validator of the shape `common + strictPart`, with `strictPart` empty when lax. */
  lemma StrictSuffixAdds(common: seq<string>, lax: seq<string>, strict: seq<string>)
    requires lax == []
    ensures Subsequence(common + lax, common + strict)
  {
    SubsequenceEmpty(strict);
    SubsequenceTail(common, lax, strict);
  }

  lemma PersonaPayloadV1StrictAdds(port: Port, payload: Json)
    ensures Subsequence(PersonaPayloadV1Errors(port, payload, false), PersonaPayloadV1Errors(port, payload, true))
  {
    if payload.Obj? {
      var m := payload.fields;
      StrictSuffixAdds(
        PersonaIdentityErrors(port, m)
        + Check(OptionalString(Field(port, m, "avatar")), "payload.avatar", "must be a string or null")
        + Check(OptionalBoolean(Field(port, m, "isDefault")), "payload.isDefault", "must be a boolean")
        + TimestampErrors(port, m),
        PersonaStrictErrors(port, m, false), PersonaStrictErrors(port, m, true));
    } else {
      SubsequenceRefl(PersonaPayloadV1Errors(port, payload, false));
    }
  }

  lemma PersonaPayloadV2StrictAdds(port: Port, payload: Json)
    ensures Subsequence(PersonaPayloadV2Errors(port, payload, false), PersonaPayloadV2Errors(port, payload, true))
  {
    if payload.Obj? {
      var m := payload.fields;
      StrictSuffixAdds(
        PersonaIdentityErrors(port, m)
        + AssetLocatorErrors(port, Field(port, m, "avatar"), "payload.avatar")
        + Check(OptionalBoolean(Field(port, m, "isDefault")), "payload.isDefault", "must be a boolean")
        + TimestampErrors(port, m),
        PersonaStrictErrors(port, m, false), PersonaStrictErrors(port, m, true));
    } else {
      SubsequenceRefl(PersonaPayloadV2Errors(port, payload, false));
    }
  }

  lemma CharacterV2PresentationStrictAdds(port: Port, m: map<string, Json>)
    ensures Subsequence(CharacterV2PresentationErrors(port, m, false), CharacterV2PresentationErrors(port, m, true))
  {
    var assets := AssetLocatorErrors(port, Field(port, m, "avatar"), "payload.avatar")
      + AssetLocatorErrors(port, Field(port, m, "chatBackground"), "payload.chatBackground");
    var scene := Field(port, m, "scene");
    SubsequenceEmpty(RulesInV2Errors(port, m, true));
    SubsequenceTail(assets, [], RulesInV2Errors(port, m, true));
    assert assets + [] == assets;
    if PresentNonNull(scene) {
      SceneV2StrictAdds(port, scene.value, "payload.scene");
    } else {
      SubsequenceRefl(SceneFieldV2Errors(port, scene, false));
    }
    SubsequenceConcat(assets + RulesInV2Errors(port, m, false), assets + RulesInV2Errors(port, m, true),
      SceneFieldV2Errors(port, scene, false), SceneFieldV2Errors(port, scene, true));
  }

  lemma CharacterPayloadV2StrictAdds(port: Port, payload: Json)
    ensures Subsequence(CharacterPayloadV2Errors(port, payload, false), CharacterPayloadV2Errors(port, payload, true))
  {
    if payload.Obj? {
      var m := payload.fields;
      var identity := CharacterIdentityErrors(port, m);
      var lax := CharacterV2PresentationErrors(port, m, false);
      var strict := CharacterV2PresentationErrors(port, m, true);
      var text := CharacterV2TextErrors(port, m);
      var extras := CharacterV2ExtrasErrors(port, m);
      var stamps := TimestampErrors(port, m);
      CharacterV2PresentationStrictAdds(port, m);
      SubsequenceTail(identity, lax, strict);
      SubsequenceHead(identity + lax, identity + strict, text);
      SubsequenceHead(identity + lax + text, identity + strict + text, extras);
      SubsequenceHead(identity + lax + text + extras, identity + strict + text + extras, stamps);
      SubsequenceEmpty(CharacterV2StrictErrors(port, m, true));
      SubsequenceConcat(identity + lax + text + extras + stamps, identity + strict + text + extras + stamps,
        CharacterV2StrictErrors(port, m, false), CharacterV2StrictErrors(port, m, true));
    } else {
      SubsequenceRefl(CharacterPayloadV2Errors(port, payload, false));
    }
  }

  lemma PayloadStrictAdds(port: Port, payload: Option<Json>, kind: Option<Json>, version: Option<string>)
    ensures Subsequence(PayloadErrors(port, payload, kind, version, false), PayloadErrors(port, payload, kind, version, true))
  {
    if SomeObject(payload) && IsKnown(version) && AsString(kind).Some? {
      var isV2 := version.value == SchemaVersionV2;
      var k := AsString(kind).value;
      if k == "character" && isV2 {
        CharacterPayloadV2StrictAdds(port, payload.value);
      } else if k == "character" {
        CharacterPayloadV1StrictAdds(port, payload.value);
      } else if k == "persona" && isV2 {
        PersonaPayloadV2StrictAdds(port, payload.value);
      } else if k == "persona" {
        PersonaPayloadV1StrictAdds(port, payload.value);
      } else {
        SubsequenceRefl([]);
      }
    } else {
      SubsequenceRefl(PayloadErrors(port, payload, kind, version, false));
    }
  }

  lemma MetaSectionStrictAdds(port: Port, meta: Option<Json>, version: Option<string>)
    ensures Subsequence(MetaSectionErrors(port, meta, version, false), MetaSectionErrors(port, meta, version, true))
  {
    if version == Some(SchemaVersionV2) {
      var original := MetaV2OriginalErrors(port, meta, false);
      var originalStrict := MetaV2OriginalErrors(port, meta, true);
      if SomeObject(meta) {
        var m := meta.value.fields;
        StrictSuffixAdds(
          Check(OptionalNumber(Field(port, m, "originalCreatedAt")), "meta.originalCreatedAt", "must be a number")
          + Check(OptionalNumber(Field(port, m, "originalUpdatedAt")), "meta.originalUpdatedAt", "must be a number")
          + Check(OptionalString(Field(port, m, "originalSource")), "meta.originalSource", "must be a string"),
          MetaV2StrictErrors(port, m, false), MetaV2StrictErrors(port, m, true));
      } else {
        SubsequenceEmpty(originalStrict);
      }
      SubsequenceTail(MetaErrors(port, meta), original, originalStrict);
    } else {
      SubsequenceRefl(MetaErrors(port, meta));
    }
  }

  /** Strict mode only adds errors: every lax error is reported under strict, in the same order. */
  lemma StrictOnlyAdds(port: Port, value: Json)
    ensures Subsequence(UecErrors(port, value, false), UecErrors(port, value, true))
  {
    if value.Obj? {
      var m := value.fields;
      var version := DetectedVersion(port, Field(port, m, "schema"));
      var head := HeaderErrors(port, m);
      var lax := PayloadErrors(port, Field(port, m, "payload"), Field(port, m, "kind"), version, false);
      var strict := PayloadErrors(port, Field(port, m, "payload"), Field(port, m, "kind"), version, true);
      var settings := SettingsErrors(Field(port, m, "app_specific_settings"));
      var metaLax := MetaSectionErrors(port, Field(port, m, "meta"), version, false);
      var metaStrict := MetaSectionErrors(port, Field(port, m, "meta"), version, true);
      var extensions := Check(OptionalObject(Field(port, m, "extensions")), "extensions", "must be an object");
      PayloadStrictAdds(port, Field(port, m, "payload"), Field(port, m, "kind"), version);
      MetaSectionStrictAdds(port, Field(port, m, "meta"), version);
      SubsequenceTail(settings, metaLax, metaStrict);
      SubsequenceHead(settings + metaLax, settings + metaStrict, extensions);
      SubsequenceTail(head, lax, strict);
      SubsequenceConcat(head + lax, head + strict, TrailerErrors(port, m, false), TrailerErrors(port, m, true));
    } else {
      SubsequenceRefl(UecErrors(port, value, false));
    }
  }

  /** A card that passes strict validation passes plain validation, with no error of its own. */
  lemma StrictValidImpliesValid(port: Port, value: Json)
    ensures UecErrors(port, value, true) == [] ==> UecErrors(port, value, false) == []
    ensures forall e :: e in UecErrors(port, value, false) ==> e in UecErrors(port, value, true)
  {
    StrictOnlyAdds(port, value);
    SubsequenceMembers(UecErrors(port, value, false), UecErrors(port, value, true));
  }

  // =====================================================================
  // Sections: which entries start with which path
  // =====================================================================

  /** The entries of `errs` that start with `head`, in order. */
  function EntriesUnder(errs: seq<string>, head: string): (r: seq<string>)
    ensures |r| <= |errs|
    ensures forall e :: e in r <==> e in errs && StartsWith(e, head)
    decreases |errs|
  {
    if errs == [] then []
    else if StartsWith(errs[0], head) then [errs[0]] + EntriesUnder(errs[1..], head)
    else EntriesUnder(errs[1..], head)
  }

  lemma {:induction false} EntriesUnderConcat(a: seq<string>, b: seq<string>, head: string)
    ensures EntriesUnder(a + b, head) == EntriesUnder(a, head) + EntriesUnder(b, head)
    decreases |a|
  {
    if a != [] {
      assert (a + b)[1..] == a[1..] + b;
      EntriesUnderConcat(a[1..], b, head);
    } else {
      assert a + b == b;
    }
  }

  /** Every entry of `errs` starts with `head`. */
  predicate AllUnder(errs: seq<string>, head: string) {
    forall i :: 0 <= i < |errs| ==> StartsWith(errs[i], head)
  }

  /** Whole sections under one head have no entry under a head that differs from it. */
  lemma SectionsApart(errs: seq<string>, head: string, other: string, i: nat)
    requires AllUnder(errs, head)
    requires i < |head| && i < |other| && head[i] != other[i]
    ensures EntriesUnder(errs, other) == []
  {
    forall e | e in errs
      ensures !StartsWith(e, other)
    {
      var j :| 0 <= j < |errs| && errs[j] == e;
      assert StartsWith(e, head);
      assert e[i] == head[i];
    }
    NoEntriesUnder(errs, other);
  }

  lemma {:induction false} NoEntriesUnder(errs: seq<string>, head: string)
    requires forall e :: e in errs ==> !StartsWith(e, head)
    ensures EntriesUnder(errs, head) == []
    decreases |errs|
  {
    if errs != [] {
      assert errs[0] in errs;
      assert forall e :: e in errs[1..] ==> e in errs;
      NoEntriesUnder(errs[1..], head);
    }
  }

  lemma EntryUnder(path: string, message: string, head: string)
    requires StartsWith(path, head)
    ensures AllUnder([ErrorEntry(path, message)], head)
  {
    StartsWithConcat(path, ": " + message);
    assert ErrorEntry(path, message) == path + (": " + message);
    StartsWithTrans(ErrorEntry(path, message), path, head);
  }

  lemma CheckUnder(ok: bool, path: string, message: string, head: string)
    requires StartsWith(path, head)
    ensures AllUnder(Check(ok, path, message), head)
  {
    EntryUnder(path, message, head);
  }

  lemma AllUnderConcat(a: seq<string>, b: seq<string>, head: string)
    requires AllUnder(a, head) && AllUnder(b, head)
    ensures AllUnder(a + b, head)
  {
  }

  lemma SchemaErrorsUnder(port: Port, schema: Option<Json>)
    ensures AllUnder(SchemaErrors(port, schema), "schema")
  {
    assert StartsWith("schema", "schema");
    EntryUnder("schema", "must be an object", "schema");
    if SomeObject(schema) {
      var m := schema.value.fields;
      assert StartsWith("schema.name", "schema") && StartsWith("schema.version", "schema") && StartsWith("schema.compat", "schema");
      EntryUnder("schema.name", "must be a string", "schema");
      EntryUnder("schema.name", "must be \"UEC\"", "schema");
      EntryUnder("schema.version", "must be a string", "schema");
      if SomeString(Field(port, m, "version")) {
        EntryUnder("schema.version", UnknownVersionMessage(Field(port, m, "version").value.s), "schema");
      }
      CheckUnder(AbsentOrString(Field(port, m, "compat")), "schema.compat", "must be a string if provided", "schema");
      AllUnderConcat(SchemaNameErrors(Field(port, m, "name")), SchemaVersionErrors(Field(port, m, "version")), "schema");
    }
  }

  /** The meta paths and the message-independent fact that their entries lie under "meta". */
  lemma MetaPathsUnder()
    ensures StartsWith("meta", "meta")
    ensures StartsWith("meta.createdAt", "meta") && StartsWith("meta.updatedAt", "meta")
    ensures StartsWith("meta.source", "meta") && StartsWith("meta.authors", "meta") && StartsWith("meta.license", "meta")
    ensures StartsWith("meta.originalCreatedAt", "meta") && StartsWith("meta.originalUpdatedAt", "meta")
    ensures StartsWith("meta.originalSource", "meta")
  {
  }

  lemma MetaErrorsUnder(port: Port, meta: Option<Json>)
    ensures AllUnder(MetaErrors(port, meta), "meta")
  {
    MetaPathsUnder();
    EntryUnder("meta", "must be an object", "meta");
    if meta.Some? && meta.value.Obj? {
      var m := meta.value.fields;
      var c1 := Check(OptionalNumber(Field(port, m, "createdAt")), "meta.createdAt", "must be a number");
      var c2 := Check(OptionalNumber(Field(port, m, "updatedAt")), "meta.updatedAt", "must be a number");
      var c3 := Check(OptionalString(Field(port, m, "source")), "meta.source", "must be a string");
      var c4 := Check(OptionalStringArray(Field(port, m, "authors")), "meta.authors", "must be an array of strings");
      var c5 := Check(OptionalString(Field(port, m, "license")), "meta.license", "must be a string");
      CheckUnder(OptionalNumber(Field(port, m, "createdAt")), "meta.createdAt", "must be a number", "meta");
      CheckUnder(OptionalNumber(Field(port, m, "updatedAt")), "meta.updatedAt", "must be a number", "meta");
      CheckUnder(OptionalString(Field(port, m, "source")), "meta.source", "must be a string", "meta");
      CheckUnder(OptionalStringArray(Field(port, m, "authors")), "meta.authors", "must be an array of strings", "meta");
      CheckUnder(OptionalString(Field(port, m, "license")), "meta.license", "must be a string", "meta");
      AllUnderConcat(c1, c2, "meta");
      AllUnderConcat(c1 + c2, c3, "meta");
      AllUnderConcat(c1 + c2 + c3, c4, "meta");
      AllUnderConcat(c1 + c2 + c3 + c4, c5, "meta");
    }
  }

  lemma MetaV2OriginalUnder(port: Port, meta: Option<Json>, strict: bool)
    ensures AllUnder(MetaV2OriginalErrors(port, meta, strict), "meta")
  {
    MetaPathsUnder();
    EntryUnder("meta.originalCreatedAt", StrictRequired, "meta");
    EntryUnder("meta.originalUpdatedAt", StrictRequired, "meta");
    AllUnderConcat([ErrorEntry("meta.originalCreatedAt", StrictRequired)], [ErrorEntry("meta.originalUpdatedAt", StrictRequired)], "meta");
    if SomeObject(meta) {
      var m := meta.value.fields;
      var c1 := Check(OptionalNumber(Field(port, m, "originalCreatedAt")), "meta.originalCreatedAt", "must be a number");
      var c2 := Check(OptionalNumber(Field(port, m, "originalUpdatedAt")), "meta.originalUpdatedAt", "must be a number");
      var c3 := Check(OptionalString(Field(port, m, "originalSource")), "meta.originalSource", "must be a string");
      var s1 := Check(SomeNumber(Field(port, m, "originalCreatedAt")), "meta.originalCreatedAt", StrictRequired);
      var s2 := Check(SomeNumber(Field(port, m, "originalUpdatedAt")), "meta.originalUpdatedAt", StrictRequired);
      CheckUnder(OptionalNumber(Field(port, m, "originalCreatedAt")), "meta.originalCreatedAt", "must be a number", "meta");
      CheckUnder(OptionalNumber(Field(port, m, "originalUpdatedAt")), "meta.originalUpdatedAt", "must be a number", "meta");
      CheckUnder(OptionalString(Field(port, m, "originalSource")), "meta.originalSource", "must be a string", "meta");
      CheckUnder(SomeNumber(Field(port, m, "originalCreatedAt")), "meta.originalCreatedAt", StrictRequired, "meta");
      CheckUnder(SomeNumber(Field(port, m, "originalUpdatedAt")), "meta.originalUpdatedAt", StrictRequired, "meta");
      AllUnderConcat(s1, s2, "meta");
      assert AllUnder(MetaV2StrictErrors(port, m, strict), "meta");
      AllUnderConcat(c1, c2, "meta");
      AllUnderConcat(c1 + c2, c3, "meta");
      AllUnderConcat(c1 + c2 + c3, MetaV2StrictErrors(port, m, strict), "meta");
    }
  }

  lemma MetaSectionUnder(port: Port, meta: Option<Json>, version: Option<string>, strict: bool)
    ensures AllUnder(MetaSectionErrors(port, meta, version, strict), "meta")
  {
    MetaErrorsUnder(port, meta);
    MetaV2OriginalUnder(port, meta, strict);
    AllUnderConcat(MetaErrors(port, meta), MetaV2OriginalErrors(port, meta, strict), "meta");
  }

  /** No entry outside the payload section starts with "payload". */
  lemma OutsidePayload(port: Port, m: map<string, Json>, strict: bool)
    ensures EntriesUnder(HeaderErrors(port, m), "payload") == []
    ensures EntriesUnder(TrailerErrors(port, m, strict), "payload") == []
  {
    var version := DetectedVersion(port, Field(port, m, "schema"));
    SchemaErrorsUnder(port, Field(port, m, "schema"));
    SectionsApart(SchemaErrors(port, Field(port, m, "schema")), "schema", "payload", 0);
    assert StartsWith("kind", "kind");
    CheckUnder(KindOk(Field(port, m, "kind")), "kind", KindMessage, "kind");
    SectionsApart(Check(KindOk(Field(port, m, "kind")), "kind", KindMessage), "kind", "payload", 0);
    EntriesUnderConcat(SchemaErrors(port, Field(port, m, "schema")), Check(KindOk(Field(port, m, "kind")), "kind", KindMessage), "payload");
    assert StartsWith("app_specific_settings", "app_specific_settings");
    CheckUnder(OptionalObject(Field(port, m, "app_specific_settings")), "app_specific_settings", "must be an object", "app_specific_settings");
    SectionsApart(SettingsErrors(Field(port, m, "app_specific_settings")), "app_specific_settings", "payload", 0);
    MetaSectionUnder(port, Field(port, m, "meta"), version, strict);
    SectionsApart(MetaSectionErrors(port, Field(port, m, "meta"), version, strict), "meta", "payload", 0);
    assert StartsWith("extensions", "extensions");
    CheckUnder(OptionalObject(Field(port, m, "extensions")), "extensions", "must be an object", "extensions");
    SectionsApart(Check(OptionalObject(Field(port, m, "extensions")), "extensions", "must be an object"), "extensions", "payload", 0);
    EntriesUnderConcat(SettingsErrors(Field(port, m, "app_specific_settings")), MetaSectionErrors(port, Field(port, m, "meta"), version, strict), "payload");
    EntriesUnderConcat(SettingsErrors(Field(port, m, "app_specific_settings")) + MetaSectionErrors(port, Field(port, m, "meta"), version, strict),
      Check(OptionalObject(Field(port, m, "extensions")), "extensions", "must be an object"), "payload");
  }

  /** The entries of a card that start with "payload" are exactly its payload section. */
  lemma PayloadEntries(port: Port, m: map<string, Json>, strict: bool)
    ensures EntriesUnder(UecErrors(port, Obj(m), strict), "payload")
      == EntriesUnder(PayloadErrors(port, Field(port, m, "payload"), Field(port, m, "kind"), DetectedVersion(port, Field(port, m, "schema")), strict), "payload")
  {
    var payload := PayloadErrors(port, Field(port, m, "payload"), Field(port, m, "kind"), DetectedVersion(port, Field(port, m, "schema")), strict);
    OutsidePayload(port, m, strict);
    EntriesUnderConcat(HeaderErrors(port, m), payload, "payload");
    EntriesUnderConcat(HeaderErrors(port, m) + payload, TrailerErrors(port, m, strict), "payload");
  }

  /**
   * A card whose `payload` is missing or not an object has exactly one
   * entry under "payload", `payload: must be an object`, whatever its
   * kind and version; the kind check is reported on its own.
   */
  lemma NonObjectPayload(port: Port, m: map<string, Json>, strict: bool)
    requires !SomeObject(Field(port, m, "payload"))
    ensures EntriesUnder(UecErrors(port, Obj(m), strict), "payload") == [ErrorEntry("payload", "must be an object")]
  {
    PayloadEntries(port, m, strict);
    PayloadEntryUnder();
  }

  /** The same card, section by section: its payload section is that one entry. */
  lemma NonObjectPayloadSections(port: Port, m: map<string, Json>, strict: bool)
    requires !SomeObject(Field(port, m, "payload"))
    ensures UecErrors(port, Obj(m), strict)
      == HeaderErrors(port, m) + [ErrorEntry("payload", "must be an object")] + TrailerErrors(port, m, strict)
  {
  }

  lemma PayloadEntryUnder()
    ensures EntriesUnder([ErrorEntry("payload", "must be an object")], "payload") == [ErrorEntry("payload", "must be an object")]
  {
    StartsWithConcat("payload", ": must be an object");
    assert ErrorEntry("payload", "must be an object") == "payload" + ": must be an object";
  }

  /**
   * An announced version that is a string but not a known one: the schema
   * check reports it, nothing is reported under "payload." (the payload
   * is not looked into), and the header and trailer are checked as usual.
   */
  lemma UnknownVersionSkipsPayload(port: Port, m: map<string, Json>, strict: bool, version: string)
    requires DetectedVersion(port, Field(port, m, "schema")) == Some(version) && !KnownVersion(version)
    ensures ErrorEntry("schema.version", UnknownVersionMessage(version)) in UecErrors(port, Obj(m), strict)
    ensures EntriesUnder(UecErrors(port, Obj(m), strict), "payload.") == []
    ensures UecErrors(port, Obj(m), strict)
      == HeaderErrors(port, m)
      + (if SomeObject(Field(port, m, "payload")) then [] else [ErrorEntry("payload", "must be an object")])
      + TrailerErrors(port, m, strict)
    ensures TrailerErrors(port, m, strict)
      == SettingsErrors(Field(port, m, "app_specific_settings")) + MetaErrors(port, Field(port, m, "meta"))
      + Check(OptionalObject(Field(port, m, "extensions")), "extensions", "must be an object")
  {
    var payload := PayloadErrors(port, Field(port, m, "payload"), Field(port, m, "kind"), Some(version), strict);
    UnknownVersionReported(port, Field(port, m, "schema"), version);
    assert ErrorEntry("schema.version", UnknownVersionMessage(version)) in HeaderErrors(port, m);
    SkippedPayloadNothingBelow(Field(port, m, "payload"));
    OutsidePayload(port, m, strict);
    NarrowerHead(HeaderErrors(port, m));
    NarrowerHead(TrailerErrors(port, m, strict));
    EntriesUnderConcat(HeaderErrors(port, m), payload, "payload.");
    EntriesUnderConcat(HeaderErrors(port, m) + payload, TrailerErrors(port, m, strict), "payload.");
  }

  lemma UnknownVersionReported(port: Port, schema: Option<Json>, version: string)
    requires DetectedVersion(port, schema) == Some(version) && !KnownVersion(version)
    ensures ErrorEntry("schema.version", UnknownVersionMessage(version)) in SchemaErrors(port, schema)
  {
    var m := schema.value.fields;
    assert SchemaVersionErrors(Field(port, m, "version")) == [ErrorEntry("schema.version", UnknownVersionMessage(version))];
  }

  /** The payload section of an unknown version has nothing under "payload.". */
  lemma SkippedPayloadNothingBelow(payload: Option<Json>)
    ensures EntriesUnder(if SomeObject(payload) then [] else [ErrorEntry("payload", "must be an object")], "payload.") == []
  {
    var entry := ErrorEntry("payload", "must be an object");
    assert entry == "payload: must be an object";
    assert !StartsWith(entry, "payload.") by {
      assert entry[7] == ':';
    }
  }

  /** Nothing under "payload" means nothing under "payload." either. */
  lemma NarrowerHead(errs: seq<string>)
    requires EntriesUnder(errs, "payload") == []
    ensures EntriesUnder(errs, "payload.") == []
  {
    forall e | e in errs
      ensures !StartsWith(e, "payload.")
    {
      PayloadDotUnderPayload(e);
    }
    NoEntriesUnder(errs, "payload.");
  }

  lemma PayloadDotUnderPayload(e: string)
    ensures StartsWith(e, "payload.") ==> StartsWith(e, "payload")
  {
    assert StartsWith("payload.", "payload");
    if StartsWith(e, "payload.") {
      StartsWithTrans(e, "payload.", "payload");
    }
  }

  // =====================================================================
  // Individual rules
  // =====================================================================

  /** The locator rules: inert values pass, a bad `type` is the only error, else the required field. */
  lemma AssetLocatorRules(port: Port, value: Option<Json>, path: string)
    ensures value.None? || value.value == Null || value.value.Str? ==> AssetLocatorErrors(port, value, path) == []
    ensures value.Some? && value.value.Obj? && !IsAssetLocatorObject(value.value)
      ==> AssetLocatorErrors(port, value, path) == [ErrorEntry(path + ".type", "must be one of: inline_base64, remote_url, asset_ref")]
    ensures value.Some? && IsAssetLocatorObject(value.value)
      ==> var m := value.value.fields;
          var required := RequiredLocatorField(m["type"].s);
          AssetLocatorErrors(port, value, path)
            == Check(OptionalString(Field(port, m, "mimeType")), path + ".mimeType", "must be a string if provided")
            + Check(SomeString(Field(port, m, required)), path + "." + required, "is required for " + m["type"].s)
  {
  }

  /**
   * `selectedVariant`: Rust accepts absence, the integer 0 or a string;
   * Python also accepts an explicit null and `false`.
   */
  lemma SelectedVariantPorts(m: map<string, Json>)
    ensures SelectedVariantOk(Rust, Field(Rust, m, "selectedVariant"))
      <==> "selectedVariant" !in m || m["selectedVariant"] == Num(0) || m["selectedVariant"].Str?
    ensures SelectedVariantOk(Python, Field(Python, m, "selectedVariant"))
      <==> "selectedVariant" !in m || m["selectedVariant"] in {Null, Num(0), Bool(false)} || m["selectedVariant"].Str?
    ensures "selectedVariant" in m && m["selectedVariant"] in {Null, Bool(false)}
      ==> !SelectedVariantOk(Rust, Field(Rust, m, "selectedVariant")) && SelectedVariantOk(Python, Field(Python, m, "selectedVariant"))
  {
  }

  /** A variant needs a string `id`, a string `content` and a number `createdAt`, in either mode. */
  lemma VariantRequirements(port: Port, variant: Json, path: string)
    ensures VariantErrors(port, variant, path) == []
      <==> (variant.Obj? && SomeString(Field(port, variant.fields, "id"))
        && SomeString(Field(port, variant.fields, "content")) && SomeNumber(Field(port, variant.fields, "createdAt")))
  {
  }

  /** Strict v1 characters need `description`, list `rules` and `scenes`, and both timestamps. */
  lemma StrictCharacterV1Requirements(port: Port, m: map<string, Json>)
    requires CharacterPayloadV1Errors(port, Obj(m), true) == []
    ensures SomeString(Field(port, m, "description")) && SomeArray(Field(port, m, "rules")) && SomeArray(Field(port, m, "scenes"))
    ensures SomeNumber(Field(port, m, "createdAt")) && SomeNumber(Field(port, m, "updatedAt"))
  {
    assert CharacterV1StrictErrors(port, m, true) == [] by {
      var before := CharacterIdentityErrors(port, m) + CharacterV1BodyErrors(port, m, true) + TimestampErrors(port, m);
      assert |before + CharacterV1StrictErrors(port, m, true)| == 0;
    }
  }

  /** Strict v2 without a `meta` object: both provenance timestamps are reported missing. */
  lemma StrictV2MissingMeta(port: Port, meta: Option<Json>)
    requires !SomeObject(meta)
    ensures MetaV2Errors(port, meta, true)
      == MetaErrors(port, meta) + [ErrorEntry("meta.originalCreatedAt", StrictRequired), ErrorEntry("meta.originalUpdatedAt", StrictRequired)]
    ensures MetaV2Errors(port, meta, false) == MetaErrors(port, meta)
  {
  }

  /** In strict mode a v2 character carrying `rules` is told to drop it; lax mode says nothing about it. */
  lemma RulesRejectedInStrictV2(port: Port, m: map<string, Json>)
    requires Field(port, m, "rules").Some?
    ensures ErrorEntry("payload.rules", RulesNotInV2) in CharacterPayloadV2Errors(port, Obj(m), true)
    ensures RulesInV2Errors(port, m, false) == []
  {
    var e := ErrorEntry("payload.rules", RulesNotInV2);
    var identity := CharacterIdentityErrors(port, m);
    var assets := AssetLocatorErrors(port, Field(port, m, "avatar"), "payload.avatar")
      + AssetLocatorErrors(port, Field(port, m, "chatBackground"), "payload.chatBackground");
    var presentation := assets + RulesInV2Errors(port, m, true) + SceneFieldV2Errors(port, Field(port, m, "scene"), true);
    assert e in RulesInV2Errors(port, m, true);
    assert e in presentation;
    var upTo := identity + presentation;
    assert e in upTo;
    var more := upTo + CharacterV2TextErrors(port, m) + CharacterV2ExtrasErrors(port, m) + TimestampErrors(port, m);
    assert e in more;
    assert e in more + CharacterV2StrictErrors(port, m, true);
  }

  /** Rust pins only a string version that differs; Python pins every announced value that is not the target. */
  lemma VersionPinPorts(value: Json, version: string)
    ensures AnnouncedVersion(Rust, value).Str? && AnnouncedVersion(Rust, value).s != version
      ==> VersionPinErrors(Rust, value, version) == [VersionMismatchEntry(version, AnnouncedVersion(Rust, value).s)]
    ensures !AnnouncedVersion(Rust, value).Str? ==> VersionPinErrors(Rust, value, version) == []
    ensures value.Obj? && "schema" !in value.fields
      ==> VersionPinErrors(Python, value, version) == [VersionMismatchEntry(version, "None")]
    ensures AnnouncedVersion(Python, value) == Str(version) ==> VersionPinErrors(Python, value, version) == []
  {
  }
}

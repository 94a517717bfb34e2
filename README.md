# Unified Entity Card engine, modelled in Dafny

A Unified Entity Card (UEC) is a JSON envelope around a character or a
persona. It has these parts:

- `schema`, holding `{name: "UEC", version: "1.0" | "2.0", compat?}`;
- `kind`;
- `payload`;
- `app_specific_settings`, `meta` and `extensions`.

The engine exists twice, once in Rust (`rust/src/*.rs`) and once in Python
(`python/uec/*.py`). It does the following:

- validates cards, in lax or strict mode, and optionally pinned to a version;
- creates cards;
- converts version 1.0 cards to 2.0 and back (upgrade and downgrade);
- normalises, parses, diffs and merges cards;
- walks the assets a card references, and rewrites them;
- lints cards.

This project models each of these operations for BOTH ports at once. Every
operation takes a `Port` (`Rust` or `Python`) wherever the two ports behave
differently. The differences are these:

- **Missing versus null.** Rust's `map.get(k)` tells an absent key from a JSON
  `null`. Python's `dict.get(k)` returns `None` for both. `Utils.Field` models
  both lookups.
- **Python truthiness.** Python writes `x or {}` and `if not kind`, which
  treats `false`, `0`, `""`, `[]` and `{}` as missing.
- **The root path.** Python reports a conflict at the root as `"root"`. Rust
  drops the empty path.
- **Long strings.** Rust measures a string in UTF-8 bytes, Python in code
  points.
- **Timestamps.** Rust accepts only timestamps that fit in an `i64`.
- **White space.** Python's `str.strip` treats U+001C–U+001F as white space;
  Rust's `trim` does not.
- **The zero variant.** A `selectedVariant` of `false`: Python treats it as
  `0`, since `False == 0` in Python. Rust keeps it as a distinct value.

JSON values are the datatype `JsonModel.Json`. Objects are `map<string, Json>`.

The source's validators append to a mutable error list, and its walkers push
into an output vector. So they are modelled as methods that thread a
`seq<string>` (or `seq<DiffEntry>`, or `seq<AssetReference>`) through loops
and recursive calls. Each method is proved equal to a left-recursive
specification function: `errs == errors + Spec(...)`. The properties are then
proved about the specification functions. Objects are walked in sorted key
order (`JsonModel.SortedKeys`). This is the order of Rust's `BTreeSet` and
`BTreeMap`, and of Python's `sorted`.

## Model

| member | source | states |
|---|---|---|
| JsonModel.ChildPathDistinct | rust/src/tools.rs:231-235 | under one path, distinct keys give distinct child paths (the bare key at the root, `path.key` below it) |
| JsonModel.NatToStringRoundTrip | rust/src/tools.rs:219 | the decimal digits of an element index read back as that index |
| JsonModel.IndexPathDistinct | rust/src/tools.rs:219 | under one path, distinct indices give distinct element paths `path[i]` |
| JsonModel.SortedKeys | rust/src/tools.rs:226-230 | the key walk visits every key of the union exactly once, in strictly increasing order (the `BTreeSet` order) |
| JsonModel.IntToString | python/uec/tools.py:108 | a number formatted into a string is decimal digits that read back as the number, preceded by `-` for a negative number |
| Utils.Field | rust/src/utils.rs:23-45 | a Rust lookup finds any present key, null included; a Python `.get` finds only a present non-null key; both return the stored value |
| Utils.PythonPredicatesAgree | python/uec/utils.py:29-49 | each Python `optional_*` predicate applied to `.get(key)` equals the model's optional predicate on the Python lookup |
| Utils.ExplicitNullDiffers | rust/src/utils.rs:23-45 | for an explicit `null`, Rust's optional number, boolean, object and string-array checks fail while Python's pass; the two optional-string checks agree |
| Utils.ErrorEntry | rust/src/utils.rs:51-53 | an error entry starts with `path: `, and the message is recovered from what follows it |
| Utils.NormalizeValue | rust/src/utils.rs:55-72 | rebuilding objects in sorted-key order yields an equal value, since objects are maps here |
| Utils.IsAssetLocatorObject | rust/src/utils.rs:74-81 | a locator object is an object whose `type` is one of `inline_base64`, `remote_url` or `asset_ref` |
| Validators.ValidateAssetLocator | rust/src/validators.rs:10-58 | appends exactly the asset-locator errors for the value, in source order (properties: `AssetLocatorRules`) |
| Validators.ValidateBookEntry | rust/src/validators.rs:92-174 | appends exactly the errors of one character-book entry: a non-object is rejected, `content` is required and the other fields are optional |
| Validators.ValidateCharacterBook | rust/src/validators.rs:60-176 | appends the book's own errors, then each entry's errors in index order, with `entries[i]` paths |
| Validators.ValidateVariant | rust/src/validators.rs:178-195 | appends exactly the variant errors: an object with string `id` and `content` and a numeric `createdAt` (properties: `VariantRequirements`) |
| Validators.ValidateVariants | rust/src/validators.rs:219-227 | appends the errors of each variant in index order, or one "must be an array" entry |
| Validators.ValidateSceneBase | rust/src/validators.rs:197-239 | appends the common scene errors including the strict-only ones, and returns whether the scene is an object |
| Validators.ValidateScene | rust/src/validators.rs:241-259 | appends the base errors, then the v1 `selectedVariantId` check |
| Validators.CheckSelectedVariant | rust/src/validators.rs:270-279 | appends one error exactly when `selectedVariant` is neither the zero selection nor a string (properties: `SelectedVariantPorts`) |
| Validators.ValidateSceneV2 | rust/src/validators.rs:261-280 | appends the base errors, then the v2 `selectedVariant` check |
| Validators.ValidateScenes | rust/src/validators.rs:520-526 | appends each scene's errors under `payload.scenes[i]`, or one "must be an array" entry |
| Validators.ValidateVoiceConfigV1 | rust/src/validators.rs:282-303 | appends exactly the v1 voice-config errors |
| Validators.ValidateVoiceConfigV2 | rust/src/validators.rs:305-358 | appends exactly the v2 voice-config errors |
| Validators.DetectedVersion | rust/src/validators.rs:360-397 | the detected version is present exactly when the schema is an object whose `version` is a string, and it is that string |
| Validators.ValidateSchema | rust/src/validators.rs:360-397 | appends the schema errors (object, name `UEC`, known version, string `compat`) and returns the detected version |
| Validators.ValidateAppSpecificSettings | rust/src/validators.rs:399-407 | appends one error exactly when the settings are present but are not an object |
| Validators.ValidateMeta | rust/src/validators.rs:409-444 | appends exactly the v1 meta errors |
| Validators.ValidateMetaV2 | rust/src/validators.rs:446-480 | appends the v1 meta errors, then the `original*` checks, then the strict-mode requirements |
| Validators.ValidateCharacterIdentity | rust/src/validators.rs:488-506 | appends the checks on `id`, `name`, `description`, `definitions` and `tags` |
| Validators.ValidatePersonaIdentity | rust/src/validators.rs:583-593 | appends the checks on `id`, `title` and `description` |
| Validators.ValidateTimestamps | rust/src/validators.rs:546-552 | appends the optional-number checks on `createdAt` and `updatedAt` |
| Validators.ValidateCharacterV1Body | rust/src/validators.rs:508-544 | appends the v1 character body checks, the scenes and voice config included |
| Validators.ValidateCharacterV1Strict | rust/src/validators.rs:554-574 | appends the strict-mode requirements of a v1 character, and nothing when lax |
| Validators.ValidateCharacterPayloadV1 | rust/src/validators.rs:482-575 | appends exactly the v1 character payload errors, or a single "must be an object" entry |
| Validators.ValidatePersonaStrict | rust/src/validators.rs:611-623 | appends the strict-mode requirements of a persona, and nothing when lax |
| Validators.ValidatePersonaPayloadV1 | rust/src/validators.rs:577-624 | appends exactly the v1 persona payload errors |
| Validators.ValidateCharacterV2Presentation | rust/src/validators.rs:652-665 | appends the avatar and background locator errors, the strict-only `rules` rejection, and the scene errors unless the scene is null |
| Validators.ValidateCharacterV2Text | rust/src/validators.rs:667-707 | appends the optional text-field checks of a v2 character |
| Validators.ValidateCharacterV2Extras | rust/src/validators.rs:709-715 | appends the voice-config, `voiceAutoplay` and character-book errors |
| Validators.ValidateCharacterV2Strict | rust/src/validators.rs:725-741 | appends the strict-mode requirements of a v2 character |
| Validators.ValidateCharacterPayloadV2 | rust/src/validators.rs:626-742 | appends exactly the v2 character payload errors |
| Validators.ValidatePersonaPayloadV2 | rust/src/validators.rs:744-789 | appends exactly the v2 persona payload errors |
| Validators.CheckKind | rust/src/validators.rs:801-804 | appends one error exactly when `kind` is neither "character" nor "persona" |
| Validators.ValidatePayload | rust/src/validators.rs:809-830 | reports a non-object payload once; skips the payload for an unknown version or kind; otherwise dispatches on kind and version |
| Validators.ValidateUec | rust/src/validators.rs:791-848 | the result's errors are the whole card's errors, and `ok` holds exactly when there are none |
| Validators.ValidateUecStrict | rust/src/validators.rs:850-852 | strict validation is validation with `strict` set |
| Validators.AnnouncedVersion | rust/src/validators.rs:857-860 | the announced version is read from `schema.version`; on Rust it is a string or absent |
| Validators.PyStr | python/uec/validators.py:598-614 | Python's `str()` of a version: a string is itself, `None` is "None", a boolean is "True" or "False", a number is its digits, and a list or object is a fixed placeholder |
| Validators.VersionMismatchEntry | rust/src/validators.rs:864-867 | the mismatch entry is reported under `schema.version` |
| Validators.ValidateUecAtVersion | rust/src/validators.rs:854-871 | the pinned result is the validation errors followed by the version-pin error, and `ok` holds exactly when the list is empty (properties: `VersionPinPorts`) |
| Validators.IsUec | rust/src/validators.rs:873-875 | true exactly when validation reports no error |
| Validators.IsKindUec | python/uec/validators.py:620-626 | true exactly when the card validates, is an object and has the given kind |
| Validators.IsCharacterUec | rust/src/validators.rs:877-883 | true exactly when the card validates and its kind is "character" |
| Validators.IsPersonaUec | rust/src/validators.rs:885-891 | true exactly when the card validates and its kind is "persona" |
| Validators.InvalidMessage | rust/src/validators.rs:898 | the failure message is "Invalid UEC: " followed by the errors joined by "; " |
| Validators.AssertUec | rust/src/validators.rs:893-900 | succeeds exactly on a valid card and returns it unchanged, and otherwise returns the joined error message |
| ValidatorProperties.StrictOnlyAdds | rust/src/validators.rs:791-848 | strict mode keeps every lax error, in order: the lax error list is a subsequence of the strict one |
| ValidatorProperties.StrictValidImpliesValid | rust/src/validators.rs:850-852 | a card valid in strict mode is valid in lax mode, and every lax error is also a strict error |
| ValidatorProperties.PayloadStrictAdds | rust/src/validators.rs:809-830 | for every kind and version, the lax payload errors are a subsequence of the strict ones |
| ValidatorProperties.SceneListStrictAdds | rust/src/validators.rs:520-523 | over a whole scene list, the lax errors are a subsequence of the strict ones |
| ValidatorProperties.NonObjectPayload | rust/src/validators.rs:829 | a missing or non-object payload produces exactly one error under `payload`: "payload: must be an object" |
| ValidatorProperties.UnknownVersionSkipsPayload | rust/src/validators.rs:806-811 | an unknown version is reported under `schema.version`, and no error under `payload.` is produced |
| ValidatorProperties.SchemaErrorsUnder | rust/src/validators.rs:360-397 | every schema error is reported under `schema` |
| ValidatorProperties.MetaSectionUnder | rust/src/validators.rs:834-838 | every meta error, v1 or v2, is reported under `meta` |
| ValidatorProperties.OutsidePayload | rust/src/validators.rs:799-804 | the header (schema, kind) and trailer (settings, meta, extensions) never report under `payload` |
| ValidatorProperties.AssetLocatorRules | rust/src/validators.rs:10-58 | an absent, null or string locator is accepted; an object without a known `type` is rejected with a `.type` error; a known locator is checked field by field |
| ValidatorProperties.SelectedVariantPorts | python/uec/validators.py:175-182 | Rust accepts an absent selection, 0 or a string; Python also accepts an explicit null and `false`, which Rust rejects |
| ValidatorProperties.VariantRequirements | rust/src/validators.rs:178-195 | a variant has no errors exactly when it is an object with a string `id`, a string `content` and a numeric `createdAt` |
| ValidatorProperties.StrictCharacterV1Requirements | rust/src/validators.rs:554-574 | a v1 character valid in strict mode has a string description, array `rules` and `scenes`, and numeric timestamps |
| ValidatorProperties.StrictV2MissingMeta | rust/src/validators.rs:449-453 | in strict v2 mode a missing meta yields both `original*` "is required" errors; lax mode adds nothing to the v1 meta errors |
| ValidatorProperties.RulesRejectedInStrictV2 | rust/src/validators.rs:655-661 | a v2 character with `rules` is rejected in strict mode only |
| ValidatorProperties.VersionPinPorts | rust/src/validators.rs:857-868 | Rust pins only a string version that differs; a card without a schema passes on Rust but fails on Python, where `None` is compared |
| Convert.InvalidCardMessage | rust/src/convert.rs:14-17 | the refusal of an invalid card is "card must be a valid v1 UEC: " followed by the errors joined by "; " |
| Convert.FindSceneById | rust/src/convert.rs:51-59 | finds the first scene whose `id` is the wanted string; none exists when no scene has it |
| Convert.PickScene | rust/src/convert.rs:49-60 | picks the first scene with the default id when there is one, and otherwise the first scene; the pick is always one of the scenes |
| Convert.ConvertScene | rust/src/convert.rs:63-71 | renames `selectedVariantId` to `selectedVariant`, with null becoming 0, and keeps every other field |
| Convert.PromptTemplate | rust/src/convert.rs:81-83 | a template id is present exactly when `systemPrompt` is a string starting with `_ID:`, and the prompt is `_ID:` followed by that id |
| Convert.FillOriginal | rust/src/convert.rs:99-118 | fills an `original*` field from its source exactly when filling is allowed and the source has the right type; otherwise the meta is unchanged |
| Convert.ConvertV1ToV2 | rust/src/convert.rs:7-125 | refuses a non-object card, an invalid card, and a card whose version is not 1.0, each with its message; otherwise returns the converted card |
| Convert.ConvertedEnvelope | rust/src/convert.rs:33-40 | the converted card has schema version 2.0 with the other schema fields kept; it has exactly the original keys plus schema, payload and meta; every other field is unchanged |
| Convert.ConvertedPayloadKeys | rust/src/convert.rs:42-90 | conversion drops `rules`, `scenes` and `defaultSceneId`, keeps every unrelated field, and adds only `scene`, `promptTemplateId` and `systemPrompt` |
| Convert.NoSceneToPick | rust/src/convert.rs:45-77 | with no non-empty scene list, the payload's own `scene` is kept as it was |
| Convert.PickedSceneKept | rust/src/convert.rs:62-74 | a picked object scene becomes `scene`, with its selection renamed |
| Convert.PromptMoved | rust/src/convert.rs:81-89 | an `_ID:` prompt moves its id into `promptTemplateId` and leaves `systemPrompt` null |
| Convert.PromptKept | rust/src/convert.rs:81-89 | without an `_ID:` prompt, `systemPrompt` and `promptTemplateId` are left as they were |
| Convert.ConvertedMetaFields | rust/src/convert.rs:92-122 | each `original*` field either keeps its value or copies its source, as the port's fill rule says; all other meta fields are kept |
| Convert.NullOriginalPorts | python/uec/convert.py:71-72 | an explicit null `originalCreatedAt` stays null on Rust and is filled from `createdAt` on Python |
| Tools.EnsureObject | rust/src/tools.rs:17-30 | afterwards the key holds an object: the old one when it was an object, otherwise `{}` |
| Tools.NormalizeUec | rust/src/tools.rs:13-34 | computes the normalised card |
| Tools.NormalizedUecShape | rust/src/tools.rs:13-34 | a non-object is returned as is; an object gains exactly `app_specific_settings`, `meta` and `extensions` as objects, keeping the ones that already were objects and every other field |
| Tools.NormalizeUecIdempotent | python/uec/tools.py:52-66 | normalising twice is the same as normalising once |
| Tools.InvalidJsonEntry | rust/src/tools.rs:43 | a parse failure is reported as `root: invalid JSON (...)` |
| Tools.ParseUec | rust/src/tools.rs:36-62 | non-text input (Python only) and unparsable text each give a single error; parsed text gives the validation errors; a value is returned exactly when the result is ok |
| Tools.SourceVersion | rust/src/tools.rs:74-78 | Rust needs a string `schema.version` and otherwise fails with "card must be an object with a schema"; Python reads `.get("schema", {}).get("version")` |
| Tools.DowngradeSelection | rust/src/tools.rs:135-141 | renames `selectedVariant` to `selectedVariantId`, with the zero selection becoming null, and keeps the other fields |
| Tools.AddRules | rust/src/tools.rs:187-189 | `rules` is added as `[]` only when it is missing and `keep_rules` is false |
| Tools.EditableObject | python/uec/tools.py:89-93 | Rust edits a section only when it is an object; Python edits `dict(..)` of the section, `{}` when it is absent, and fails when `dict` fails |
| Tools.PyDict | python/uec/tools.py:93 | Python `dict(..)` copies a dict, gives `{}` for `[]` and `""`, and fails on another string, a number, a boolean and null |
| Tools.PairsDictOk | python/uec/tools.py:93 | `dict` of a list succeeds exactly when every element is a pair |
| Tools.PairsDictKeys | python/uec/tools.py:93 | the keys of `dict` of a list are exactly the keys of its pairs |
| Tools.PairsDictLastWins | python/uec/tools.py:93 | each key of `dict` of a list holds the value of the last pair with that key |
| Tools.DowngradeUec | rust/src/tools.rs:95-208 | computes the downgrade result or its error |
| Tools.UpgradeUec | rust/src/tools.rs:73-93 | fails without a source version; for target 2.0 normalises a 2.0 card, converts a 1.0 card and refuses others; for target 1.0 downgrades; refuses other targets |
| Tools.DowngradeGuards | rust/src/tools.rs:100-119 | refuses a target other than 1.0; returns a 1.0 card normalised and with no warnings; refuses a source that is neither 1.0 nor 2.0 |
| Tools.DowngradeV2Succeeds | rust/src/tools.rs:121-129 | a 2.0 card with an object schema downgrades to a card whose schema version is 1.0; on Python, when `dict` accepts its payload and meta or they are absent |
| Tools.DowngradeEmptySections | python/uec/tools.py:93-141 | an empty list or string as payload or meta: Python downgrades it as `{}` (payload `{rules: []}` unless rules are kept, meta `{}`), Rust leaves it as it is |
| Tools.DowngradeMetaShape | python/uec/tools.py:133-141 | Python always writes an object meta; Rust leaves a non-object meta as it was |
| Tools.DowngradeSceneShape | rust/src/tools.rs:131-151 | `scene` is removed; an object scene becomes the one-element `scenes` list, and its `id` becomes `defaultSceneId` when the port's lookup finds it |
| Tools.DowngradeScenePorts | python/uec/tools.py:95-103 | with a null scene `id` and `selectedVariant: false`: Rust writes `defaultSceneId: null` and keeps `false`; Python writes neither |
| Tools.DowngradePromptRules | rust/src/tools.rs:153-166 | `promptTemplateId` is removed with exactly one warning when present; it is folded into `_ID:` only when `systemPrompt` is missing or null; other fields are kept |
| Tools.DowngradePromptPorts | python/uec/tools.py:105-111 | a numeric template id is folded as its digits by Python and dropped by Rust; both warn |
| Tools.DropFieldsRemoves | rust/src/tools.rs:178-185 | removing a list of distinct fields removes exactly those, keeps the rest unchanged, and warns once per field that was present |
| Tools.DowngradeRemovesV2Fields | rust/src/tools.rs:168-185 | the v2-only fields are removed, and each produces exactly one warning when present and none otherwise |
| Tools.DowngradeRulesRule | rust/src/tools.rs:187-189 | `rules` is in the result exactly when it was present or `keep_rules` is false; a present `rules` is unchanged; an added one is `[]` |
| Tools.DropOriginalRule | rust/src/tools.rs:193-201 | one `original*` meta field is removed, with a warning exactly when the port's lookup found it; other fields are kept |
| Tools.DowngradeMetaRule | rust/src/tools.rs:192-202 | the three `original*` fields are removed, other meta fields are kept, and the warnings come in source order |
| Diff.PyDeepEqualIsEquality | python/uec/tools.py:162-173 | Python's recursive `_deep_equal` is exactly structural equality |
| Diff.RootOr | rust/src/tools.rs:256-260 | a `changed` path is never empty, and a non-empty path is reported as it is |
| Diff.RootChange | rust/src/tools.rs:256-265 | two different values that are not both arrays or both objects give one `changed` entry, at "root" at the top and at the path itself below |
| Diff.WalkDiffInto | rust/src/tools.rs:210-266 | the recursive walk appends exactly the diff entries of the two values to the output |
| Diff.DiffUec | rust/src/tools.rs:268-274 | the diff is the walk over both normalised cards; two cards that normalise equally have no differences |
| Diff.ScalarDiff | rust/src/tools.rs:255-264 | two values that are not both arrays or both objects give nothing when equal and otherwise one `changed` entry |
| Diff.ArrayPadding | rust/src/tools.rs:217-222 | an index past the left array's end is compared against null |
| Diff.TrailingNullUnreported | rust/src/tools.rs:220-222 | `[]` against `[null]` gives no entry, because padding is null |
| Diff.AddedKey | rust/src/tools.rs:238-243 | a key only on the right appears as `added` with its new value |
| Diff.RemovedKey | rust/src/tools.rs:244-249 | a key only on the left appears as `removed` with its old value |
| Diff.Mirror | rust/src/tools.rs:238-249 | mirroring maps each entry to its flip, one for one |
| Diff.WalkDiffMirror | rust/src/tools.rs:210-266 | diffing b against a gives the mirror of diffing a against b: added and removed swap, before and after swap |
| Merge.ConflictPath | python/uec/tools.py:225 | a Python conflict path is never empty, and a non-empty path is recorded as it is (the "root" entry itself is `RootConflictPorts`) |
| Merge.MergeValuesInto | rust/src/tools.rs:276-339 | the recursive merge returns the merged value and adds exactly the merge's conflicts to the set |
| Merge.MergeObjectsInto | rust/src/tools.rs:300-326 | merging two objects returns the key-by-key merge and its conflicts |
| Merge.MergeKeysInto | rust/src/tools.rs:306-323 | the loop over the sorted keys builds the merged map and collects the conflicts |
| Merge.DefaultOptions | python/uec/types.py:35-37 | the default options neither concatenate nor keep the base |
| Merge.ReportedConflicts | rust/src/tools.rs:344-349 | the reported conflicts are sorted and without repetition; Rust drops the empty path and Python keeps every entry |
| Merge.MergeUec | rust/src/tools.rs:341-351 | returns the merged value and the reported conflicts of the merge from the root |
| Merge.MergeObjects | rust/src/tools.rs:300-326 | a merged object has the union of the keys; base-only keys are kept; incoming keys are merged recursively |
| Merge.MergeObjectConflicts | rust/src/tools.rs:316-320 | an object's conflicts are exactly the conflicts of its incoming keys' merges |
| Merge.MergeKeysContents | rust/src/tools.rs:306-323 | the merged map has exactly the walked keys, each holding its key's merge, and the union of their conflicts |
| Merge.MergeSelf | rust/src/tools.rs:283-338 | merging a value with itself without concatenation gives that value and no conflict |
| Merge.MergeDependsOnMeaning | rust/src/tools.rs:289-332 | only whether the options say `concat` and `base` matters, not their other values |
| Merge.DefaultsAgree | python/uec/tools.py:246 | the two ports' default options merge alike |
| Merge.PolicyOnlyResolvesConflicts | rust/src/tools.rs:327-336 | the conflict policy never changes which conflicts are found, and without conflicts it does not change the value |
| Merge.NullBasePorts | python/uec/tools.py:218-219 | a null base: Python takes the incoming value with no conflict; Rust treats it as a scalar conflict |
| Merge.NullIncomingKeepsBase | rust/src/tools.rs:283-285 | a null incoming value keeps the base, with no conflict |
| Merge.RootConflictPorts | rust/src/tools.rs:348 | a root scalar conflict is reported as ["root"] by Python and not at all by Rust |
| Assets.KindName | rust/src/tools.rs:357-366 | the reference kinds are named "string" and "locator" |
| Assets.AssetAt | rust/src/tools.rs:354-370 | a value is an asset exactly when it is a likely asset string or a locator object; a string is checked first |
| Assets.ExtractAssetsWalk | rust/src/tools.rs:353-391 | the recursive walk appends exactly the value's asset references |
| Assets.ExtractAssets | rust/src/tools.rs:393-397 | extraction returns the references of the whole card from the empty path |
| Assets.RewriteWalk | rust/src/tools.rs:403-445 | the recursive walk returns the card with every asset replaced by the mapper's result |
| Assets.RewriteAssets | rust/src/tools.rs:399-448 | rewriting works from the empty path |
| Assets.AssetIsLeaf | rust/src/tools.rs:354-370 | an asset is reported once, at its own path, and the walk does not descend into it |
| Assets.ExtractedAreAssets | rust/src/tools.rs:353-391 | every extracted reference is an asset value, of the right kind, at a path under the walked path |
| Assets.RewriteFixed | rust/src/tools.rs:403-445 | a mapper that returns each extracted value unchanged leaves the card unchanged |
| Assets.RewriteIdentity | python/uec/tools.py:286-306 | rewriting with the identity mapper returns the card |
| Assets.RewriteKeepsShape | rust/src/tools.rs:423-443 | a non-asset array keeps its length, a non-asset object keeps its keys, and a scalar is unchanged |
| Lint.Timestamp | rust/src/tools.rs:468-472 | a timestamp is read when it is a number, and on Rust only when it fits in an `i64` |
| Lint.SchemaVersionOf | rust/src/tools.rs:490-494 | the version is that of an object schema with a string `version` |
| Lint.Utf8Width | rust/src/tools.rs:523 | a character takes 1 to 4 bytes, and exactly 1 when it is ASCII |
| Lint.Utf8Length | rust/src/tools.rs:523 | a string's byte length is at least its number of characters |
| Lint.WarnIf | rust/src/tools.rs:460-466 | a rule gives its one warning exactly when its condition holds |
| Lint.CheckPayload | rust/src/tools.rs:460-514 | the payload rules give their warnings in source order |
| Lint.CheckAssets | rust/src/tools.rs:516-527 | the asset loop appends one warning per very large inline asset, in extraction order |
| Lint.LintUec | rust/src/tools.rs:450-533 | the lint's warnings are the card's warnings, and `ok` holds exactly when there are none |
| Lint.LargeAssetWarningsExactly | rust/src/tools.rs:516-527 | a large-asset warning is produced exactly for a locator of type `inline_base64` whose `data` is longer than 200000 |
| Lint.PayloadWarningsKnown | rust/src/tools.rs:460-514 | every payload warning is one of the four fixed messages |
| Lint.ShapeWarningAlone | rust/src/tools.rs:453-458 | a card without an object payload gets only the shape warning |
| Lint.ShapeWarningOnlyForShape | rust/src/tools.rs:453-458 | a card with an object payload never gets the shape warning |
| Lint.BlankPorts | python/uec/tools.py:321 | a string blank to Rust's `trim` is blank to Python's `strip` |
| Lint.SeparatorIsBlankInPythonOnly | python/uec/tools.py:321 | U+001C is blank to Python and not to Rust |
| Lint.LargeInlinePorts | python/uec/tools.py:366-374 | an asset too large by Python's count of code points is too large by Rust's count of bytes |
| Lint.AsciiLength | rust/src/tools.rs:523 | an ASCII string's byte length is its length |
| Lint.TimestampPorts | python/uec/tools.py:324-333 | when every number fits in an `i64`, both ports agree on out-of-order timestamps |
| Create.NormalizeSystemPrompt | rust/src/create.rs:6-29 | the payload changes exactly when the flag is set and `systemPrompt` is a string without `_ID:`; it then gets the prefix and all else is kept |
| Create.NormalizeSystemPromptIdempotent | python/uec/create.py:9-22 | normalising the prompt twice is the same as once |
| Create.NormalizeSystemPromptRecoverable | rust/src/create.rs:19-27 | removing the `_ID:` prefix gives back the original prompt |
| Create.OrEmptyObject | python/uec/create.py:59-61 | a missing section becomes `{}`; on Python a falsy one becomes `{}` too; otherwise the section is kept |
| Create.CreatedUec | rust/src/create.rs:31-84 | an empty kind and a non-object payload are refused with their messages; otherwise the card has exactly the six envelope keys |
| Create.OverlaySchema | rust/src/create.rs:57-61 | overlaying the custom schema gives the base updated with every custom field |
| Create.CreateUec | rust/src/create.rs:31-84 | builds the created card or its refusal |
| Create.CreateCharacterUec | rust/src/create.rs:86-103 | a character card always succeeds, has the envelope keys and kind "character" |
| Create.CreatePersonaUec | rust/src/create.rs:105-121 | a persona card has the envelope keys, kind "persona" and the payload unchanged |
| Create.ForcedV2Schema | rust/src/create.rs:123-142 | the forced schema asks for version 2.0 and keeps every other custom field |
| Create.CreateCharacterUecV2 | rust/src/create.rs:123-142 | a v2 character card has schema version 2.0 and the payload unchanged |
| Create.CreatePersonaUecV2 | rust/src/create.rs:144-163 | a v2 persona card has schema version 2.0 and the payload unchanged |
| Create.CreatedSchemaHeader | rust/src/create.rs:43-61 | the schema is the base overlaid with the custom fields, and its version is 2.0 exactly for a v2 request |
| Create.CreatedPromptRule | rust/src/create.rs:63-67 | the payload changes only for a v1 character with the flag set and an unprefixed prompt, and the prompt is then an id |
| Create.DefaultsPorts | python/uec/create.py:59-61 | the ports' defaults differ exactly for a falsy section other than `{}` |
| Create.CreatePorts | python/uec/create.py:25-62 | without falsy non-empty sections, both ports create the same card |

## Left out

- **Numbers.** Numbers are integers. Floating point, and Python's `bool` being
  an `int` (outside the zero selection), are not modelled.
- **JSON text.** Parsing and printing JSON text are outside, so
  `stringify_uec` is not part of this model. `ParseUec` takes the parser's
  outcome as a parameter: either not text, or unparsable with a reason, or
  parsed to a value.
- **The typed card.** Rust `assert_uec` also runs serde into the typed `Uec`
  record. `AssertUec` models only the validation step, and returns the value
  itself.
- **Object order.** Objects are maps, so Python's dict insertion order is not
  modelled. As a result:
  - every object walk uses sorted key order;
  - Python's `extract_assets` reports references in that order, not in
    insertion order;
  - `Utils.NormalizeValue` is the identity.
- **Python exceptions.** They are `Err` strings. Some messages stand for
  exceptions Python raises implicitly:
  - `SourceVersion` fails with a fixed message on Python when `schema` is not
    a dict;
  - `PyDict` fails with a fixed message where Python's `dict(..)` raises.
- **Python's `TypeError` on an unhashable value.** Python tests `kind` and a
  locator's `type` with `in` on a set literal (python/uec/validators.py:560,
  python/uec/utils.py:76). That hashes the value, so a list or dict there
  raises `TypeError`. The model does not raise; on both ports it treats such
  a `kind` as an unknown kind and such an object as no locator. The members
  that therefore return normally where Python raises:
- CheckKind: it appends the kind error for a list or dict `kind`, where Python raises.
- ValidateUec: it returns the kind error for a list or dict `kind`, where Python raises.
- ValidateUecStrict: as `ValidateUec`, which it calls.
- ValidateUecAtVersion: as `ValidateUec`, which it calls.
- IsUec: it is false for a list or dict `kind`, where Python raises.
- IsKindUec: as `IsUec`, which it calls.
- IsCharacterUec: as `IsKindUec`, which it calls.
- IsPersonaUec: as `IsKindUec`, which it calls.
- AssertUec: it fails with the joined "Invalid UEC" message, where Python raises `TypeError`.
- ConvertV1ToV2: it refuses the card as invalid, where Python raises `TypeError` while validating.
- ParseUec: it returns the kind error, where Python's validation after `json.loads` raises.
- UpgradeUec: to 2.0 it refuses a 1.0 card with a list or dict `kind` as invalid, where Python raises.
- IsAssetLocatorObject: it is false for a list or dict `type`, where Python raises.
- AssetAt: it finds no asset at an object whose `type` is a list or dict, where Python raises.
- ExtractAssetsWalk: it walks into an object whose `type` is a list or dict, where Python raises.
- ExtractAssets: as `ExtractAssetsWalk`, which it calls.
- RewriteWalk: it rewrites inside an object whose `type` is a list or dict, where Python raises.
- RewriteAssets: as `RewriteWalk`, which it calls.
- LintUec: it lints a card holding an object whose `type` is a list or dict, where Python's `extract_assets` raises.
- PyPair: a pair whose key is a number, a boolean or null fails with the
  `NonStringKey` message, because an object of this model has string keys;
  Python builds a dict with that key.
- PyPair: a two-key dict used as a pair takes its keys in sorted order, not
  in insertion order (see "Object order").
- **`PyStr`.** It renders a list or an object as a fixed placeholder
  rather than Python's `repr`.
- **Python `schema or {}` in create.** It is modelled with the schema as a
  map, so a non-dict schema argument is not modelled.
- **Assets: the mapper.** Rust's `rewrite_assets` mapper is a stateful
  `FnMut`. It is modelled as a pure function, so a mapper that counts or
  records its calls is not.
- **Assets: the object check.** Rust's walkers also check that a locator is
  an object (rust/src/tools.rs:363, 415) before testing it. Python only calls
  `is_asset_locator_object`, which already includes that check. The model
  uses the same locator predicate for both ports, so the two agree.
- **Types and constants.** The constants module and the record types in
  `rust/src/types.rs` and `python/uec/types.py` hold only constants and record
  shapes. The constants are written out in `Utils`. `rust/src/lib.rs` only
  re-exports and is not part of this model.
- **`ConvertedCard`.** It applies Python's edit to `schema` and `payload`
  unconditionally. This is the same as Rust's edit on every card that reaches
  it: conversion runs only on cards that validate, and a valid card always has
  object `schema` and `payload`.
- **Converted cards and version 2.0.** A converted card need not validate as
  2.0. Conversion keeps
  payload fields that version 1.0 does not check but version 2.0 does (a
  `payload.source` of 5, say), so the converted card can fail 2.0
  validation. The model follows the code, and no lemma states that a
  converted card validates as 2.0.

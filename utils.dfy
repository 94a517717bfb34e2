/**
 * The shared type predicates, version test, error formatting and asset
 * recognisers of the UEC engine, in both of its ports.
 *
 * The Rust port looks fields up with `map.get(key)`, which tells an absent
 * key from an explicit `null`. The Python port uses `dict.get(key)`, which
 * answers `None` for both. `Field` captures that one difference, and
 * `PythonPredicatesAgree` shows that the Python predicates applied to
 * `dict.get` are exactly the Rust predicates applied to the Python lookup,
 * so every validator can be written once for both ports.
 */
module Utils {
  import opened JsonModel

  datatype Port = Rust | Python

  const SchemaName: string := "UEC"
  const SchemaVersion: string := "1.0"
  const SchemaVersionV2: string := "2.0"

  /** The prefix that marks a `systemPrompt` as a reference to a prompt template id. */
  const IdPrefix: string := "_ID:"

  /** The field lookup of each port: Python folds an explicit null into absence. */
  function Field(port: Port, m: map<string, Json>, key: string): (r: Option<Json>)
    ensures port == Rust ==> r == Get(m, key)
    ensures port == Python ==> (r.Some? <==> key in m && m[key] != Null)
    ensures r.Some? ==> key in m && r.value == m[key]
  {
    if key in m && (port == Rust || m[key] != Null) then Some(m[key]) else None
  }

  /** `dict.get(key)` in Python: `None` (here `Null`) when the key is absent. */
  function PyGet(m: map<string, Json>, key: string): Json {
    MemberOrNull(m, key)
  }

  // --- Rust predicates (utils.rs) ---------------------------------------

  predicate IsString(v: Json) { v.Str? }

  /** Every integer is a finite number; booleans are not numbers. */
  predicate IsNumber(v: Json) { v.Num? }

  predicate IsBoolean(v: Json) { v.Bool? }

  predicate IsObject(v: Json) { v.Obj? }

  predicate IsArray(v: Json) { v.Arr? }

  predicate AllStrings(items: seq<Json>) {
    forall i :: 0 <= i < |items| ==> items[i].Str?
  }

  predicate OptionalString(o: Option<Json>) {
    o.None? || o.value == Null || o.value.Str?
  }

  predicate OptionalNumber(o: Option<Json>) {
    o.None? || IsNumber(o.value)
  }

  predicate OptionalBoolean(o: Option<Json>) {
    o.None? || IsBoolean(o.value)
  }

  predicate OptionalObject(o: Option<Json>) {
    o.None? || IsObject(o.value)
  }

  predicate OptionalStringArray(o: Option<Json>) {
    o.None? || (o.value.Arr? && AllStrings(o.value.items))
  }

  /** `o.is_some_and(pred)` for the four type predicates. */
  predicate SomeString(o: Option<Json>) { o.Some? && IsString(o.value) }
  predicate SomeNumber(o: Option<Json>) { o.Some? && IsNumber(o.value) }
  predicate SomeObject(o: Option<Json>) { o.Some? && IsObject(o.value) }
  predicate SomeArray(o: Option<Json>) { o.Some? && IsArray(o.value) }

  /** Absent, or present and a string: `if let Some(v) = .. && !is_string(v)` fails. */
  predicate AbsentOrString(o: Option<Json>) { o.None? || IsString(o.value) }

  predicate KnownVersion(version: string) {
    version == SchemaVersion || version == SchemaVersionV2
  }

  // --- Python predicates (utils.py), on values where absence is `None` ---

  predicate PyOptionalString(v: Json) { v == Null || IsString(v) }
  predicate PyOptionalNumber(v: Json) { v == Null || IsNumber(v) }
  predicate PyOptionalBoolean(v: Json) { v == Null || IsBoolean(v) }
  predicate PyOptionalObject(v: Json) { v == Null || IsObject(v) }
  predicate PyOptionalStringList(v: Json) { v == Null || (v.Arr? && AllStrings(v.items)) }
  predicate PyIsKnownVersion(v: Json) { v.Str? && KnownVersion(v.s) }

  /**
   * Applying a Python predicate to `dict.get(key)` is applying the Rust
   * predicate of the same name to the Python lookup `Field(Python, ..)`.
   */
  lemma PythonPredicatesAgree(m: map<string, Json>, key: string)
    ensures PyOptionalString(PyGet(m, key)) == OptionalString(Field(Python, m, key))
    ensures PyOptionalNumber(PyGet(m, key)) == OptionalNumber(Field(Python, m, key))
    ensures PyOptionalBoolean(PyGet(m, key)) == OptionalBoolean(Field(Python, m, key))
    ensures PyOptionalObject(PyGet(m, key)) == OptionalObject(Field(Python, m, key))
    ensures PyOptionalStringList(PyGet(m, key)) == OptionalStringArray(Field(Python, m, key))
    ensures (PyGet(m, key) != Null) == Field(Python, m, key).Some?
  {
  }

  /**
   * Where the ports differ: an explicit `null` is accepted as an absent
   * optional number, boolean, object or string list by Python only.
   */
  lemma ExplicitNullDiffers(m: map<string, Json>, key: string)
    requires key in m && m[key] == Null
    ensures OptionalString(Field(Rust, m, key)) && OptionalString(Field(Python, m, key))
    ensures !OptionalNumber(Field(Rust, m, key)) && OptionalNumber(Field(Python, m, key))
    ensures !OptionalBoolean(Field(Rust, m, key)) && OptionalBoolean(Field(Python, m, key))
    ensures !OptionalObject(Field(Rust, m, key)) && OptionalObject(Field(Python, m, key))
    ensures !OptionalStringArray(Field(Rust, m, key)) && OptionalStringArray(Field(Python, m, key))
  {
  }

  /** `push_error`: one entry `"<path>: <message>"`. */
  function ErrorEntry(path: string, message: string): (r: string)
    ensures StartsWith(r, path + ": ")
    ensures |r| == |path| + 2 + |message|
    ensures r[|path| + 2..] == message
  {
    StartsWithConcat(path + ": ", message);
    path + ": " + message
  }

  /** A failure message: `prefix` followed by every error, joined by `"; "`. */
  function JoinedErrors(prefix: string, errors: seq<string>): (r: string)
    ensures StartsWith(r, prefix)
    ensures r[|prefix|..] == JoinWith(errors, "; ")
  {
    StartsWithConcat(prefix, JoinWith(errors, "; "));
    prefix + JoinWith(errors, "; ")
  }

  /** `push_error`: appends one entry and leaves the earlier ones as they were. */
  method PushError(errors: seq<string>, path: string, message: string) returns (errs: seq<string>)
    ensures errs == errors + [ErrorEntry(path, message)]
  {
    errs := errors + [ErrorEntry(path, message)];
  }

  /** The entries one rule contributes: its error when it fails, nothing when it holds. */
  ghost function Check(ok: bool, path: string, message: string): seq<string> {
    if ok then [] else [ErrorEntry(path, message)]
  }

  /*
   * `if !pred(map.get(key)) { push_error(errors, path, message) }`, one
   * method per predicate. Each takes the looked-up field itself rather
   * than the truth value of the predicate, so that its postcondition
   * names the predicate applied to that field.
   */

  method CheckOptionalString(errors: seq<string>, o: Option<Json>, path: string, message: string) returns (errs: seq<string>)
    ensures errs == errors + Check(OptionalString(o), path, message)
  {
    errs := errors;
    if !OptionalString(o) {
      errs := PushError(errors, path, message);
    }
  }

  method CheckOptionalNumber(errors: seq<string>, o: Option<Json>, path: string, message: string) returns (errs: seq<string>)
    ensures errs == errors + Check(OptionalNumber(o), path, message)
  {
    errs := errors;
    if !OptionalNumber(o) {
      errs := PushError(errors, path, message);
    }
  }

  method CheckOptionalBoolean(errors: seq<string>, o: Option<Json>, path: string, message: string) returns (errs: seq<string>)
    ensures errs == errors + Check(OptionalBoolean(o), path, message)
  {
    errs := errors;
    if !OptionalBoolean(o) {
      errs := PushError(errors, path, message);
    }
  }

  method CheckOptionalObject(errors: seq<string>, o: Option<Json>, path: string, message: string) returns (errs: seq<string>)
    ensures errs == errors + Check(OptionalObject(o), path, message)
  {
    errs := errors;
    if !OptionalObject(o) {
      errs := PushError(errors, path, message);
    }
  }

  method CheckOptionalStringArray(errors: seq<string>, o: Option<Json>, path: string, message: string) returns (errs: seq<string>)
    ensures errs == errors + Check(OptionalStringArray(o), path, message)
  {
    errs := errors;
    if !OptionalStringArray(o) {
      errs := PushError(errors, path, message);
    }
  }

  method CheckSomeString(errors: seq<string>, o: Option<Json>, path: string, message: string) returns (errs: seq<string>)
    ensures errs == errors + Check(SomeString(o), path, message)
  {
    errs := errors;
    if !SomeString(o) {
      errs := PushError(errors, path, message);
    }
  }

  method CheckSomeNumber(errors: seq<string>, o: Option<Json>, path: string, message: string) returns (errs: seq<string>)
    ensures errs == errors + Check(SomeNumber(o), path, message)
  {
    errs := errors;
    if !SomeNumber(o) {
      errs := PushError(errors, path, message);
    }
  }

  method CheckSomeObject(errors: seq<string>, o: Option<Json>, path: string, message: string) returns (errs: seq<string>)
    ensures errs == errors + Check(SomeObject(o), path, message)
  {
    errs := errors;
    if !SomeObject(o) {
      errs := PushError(errors, path, message);
    }
  }

  method CheckSomeArray(errors: seq<string>, o: Option<Json>, path: string, message: string) returns (errs: seq<string>)
    ensures errs == errors + Check(SomeArray(o), path, message)
  {
    errs := errors;
    if !SomeArray(o) {
      errs := PushError(errors, path, message);
    }
  }

  method CheckAbsentOrString(errors: seq<string>, o: Option<Json>, path: string, message: string) returns (errs: seq<string>)
    ensures errs == errors + Check(AbsentOrString(o), path, message)
  {
    errs := errors;
    if !AbsentOrString(o) {
      errs := PushError(errors, path, message);
    }
  }

  /** `if map.get(key).is_some() { push_error(..) }`: the field must be absent. */
  method CheckAbsent(errors: seq<string>, o: Option<Json>, path: string, message: string) returns (errs: seq<string>)
    ensures errs == errors + Check(o.None?, path, message)
  {
    errs := errors;
    if o.Some? {
      errs := PushError(errors, path, message);
    }
  }

  lemma EmptyAppend(s: seq<string>)
    ensures [] + s == s
  {
  }

  /**
   * `normalize_value`: rebuilds arrays element-wise and objects with their
   * keys in sorted order. On the model, where objects carry no key order,
   * the result is the value itself.
   */
  function NormalizeValue(v: Json): (r: Json)
    ensures r == v
  {
    match v
    case Arr(items) =>
      var out := seq(|items|, i requires 0 <= i < |items| => NormalizeValue(items[i]));
      assert out == items by {
        forall i | 0 <= i < |items| ensures out[i] == items[i] {
          assert items[i] < v;
        }
      }
      Arr(out)
    case Obj(m) =>
      var out := map k | k in m :: NormalizeValue(m[k]);
      assert out == m by {
        assert out.Keys == m.Keys;
        forall k | k in m ensures out[k] == m[k] {
          assert m[k] < v;
        }
      }
      Obj(out)
    case _ => v
  }

  predicate IsAssetType(t: string) {
    t == "inline_base64" || t == "remote_url" || t == "asset_ref"
  }

  /** An object whose string `type` names one of the three locator kinds. */
  function IsAssetLocatorObject(v: Json): (r: bool)
    ensures r <==> v.Obj? && "type" in v.fields && v.fields["type"].Str? && IsAssetType(v.fields["type"].s)
  {
    match AsString(Member(v, "type"))
    case Some(t) => IsAssetType(t)
    case None => false
  }

  /** A string that looks like a link to asset content. */
  predicate IsLikelyAssetString(v: Json) {
    v.Str? && (StartsWith(v.s, "http://") || StartsWith(v.s, "https://") || StartsWith(v.s, "data:"))
  }
}

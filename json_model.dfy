/**
 * JSON values as the UEC engine sees them, plus the small string toolkit
 * that the engine's error paths and asset paths are built from.
 *
 * Objects are finite maps: key order is not part of a value. Where the
 * engine's output depends on an order (diff entries, merge conflicts,
 * the asset walk) it iterates keys in sorted order, which `SortedKeys`
 * provides.
 */
module JsonModel {

  datatype Option<+T> = None | Some(value: T)

  datatype Result<+T, +E> = Ok(value: T) | Err(error: E)

  /** A JSON value. Numbers are integers (see README, "Left out"). */
  datatype Json =
    | Null
    | Bool(b: bool)
    | Num(n: int)
    | Str(s: string)
    | Arr(items: seq<Json>)
    | Obj(fields: map<string, Json>)

  /** `map.get(key)`: the value stored under `key`, if any. */
  function Get(m: map<string, Json>, key: string): (r: Option<Json>)
    ensures r.Some? <==> key in m
    ensures r.Some? ==> r.value == m[key]
  {
    if key in m then Some(m[key]) else None
  }

  /** `value.get(key)` on any JSON value: only objects have members. */
  function Member(v: Json, key: string): (r: Option<Json>)
    ensures r.Some? <==> v.Obj? && key in v.fields
    ensures r.Some? ==> r.value == v.fields[key]
  {
    if v.Obj? then Get(v.fields, key) else None
  }

  /** `value.get(key).unwrap_or(&Value::Null)`. */
  function MemberOrNull(m: map<string, Json>, key: string): (r: Json)
    ensures key in m ==> r == m[key]
    ensures key !in m ==> r == Null
  {
    if key in m then m[key] else Null
  }

  /** The members of an object, none for any other value. */
  function FieldsOrEmpty(v: Json): (r: map<string, Json>)
    ensures v.Obj? ==> r == v.fields
    ensures !v.Obj? ==> r == map[]
  {
    if v.Obj? then v.fields else map[]
  }

  /** `Value::as_str` lifted to an optional value. */
  function AsString(o: Option<Json>): (r: Option<string>)
    ensures r.Some? <==> o.Some? && o.value.Str?
    ensures r.Some? ==> o.value == Str(r.value)
  {
    if o.Some? && o.value.Str? then Some(o.value.s) else None
  }

  predicate StartsWith(s: string, prefix: string) {
    |prefix| <= |s| && s[..|prefix|] == prefix
  }

  lemma StartsWithConcat(prefix: string, rest: string)
    ensures StartsWith(prefix + rest, prefix)
  {
    assert (prefix + rest)[..|prefix|] == prefix;
  }

  lemma StartsWithTrans(s: string, p: string, q: string)
    requires StartsWith(s, p) && StartsWith(p, q)
    ensures StartsWith(s, q)
  {
    assert s[..|q|] == s[..|p|][..|q|];
  }

  /** Two prefixes of one string: the shorter is a prefix of the longer. */
  lemma StartsWithBoth(s: string, p: string, q: string)
    requires StartsWith(s, p) && StartsWith(s, q) && |q| <= |p|
    ensures StartsWith(p, q)
  {
    assert p[..|q|] == s[..|p|][..|q|];
  }

  function DigitChar(d: nat): (c: char)
    requires d < 10
    ensures '0' <= c <= '9'
  {
    "0123456789"[d]
  }

  /** The decimal rendering of a natural number (Rust `{}` / Python `str`). */
  function NatToString(n: nat): (r: string)
    ensures |r| >= 1
    ensures forall i :: 0 <= i < |r| ==> '0' <= r[i] <= '9'
  {
    if n < 10 then [DigitChar(n)] else NatToString(n / 10) + [DigitChar(n % 10)]
  }

  /** The decimal rendering of an integer: its digits, after a minus sign when it is negative. */
  function IntToString(n: int): (r: string)
    ensures n >= 0 ==> r == NatToString(n)
    ensures n < 0 ==> r == "-" + NatToString(-n)
    ensures n >= 0 ==> (forall i :: 0 <= i < |r| ==> '0' <= r[i] <= '9') && DigitsValue(r) == n
    ensures n < 0 ==> |r| >= 2 && r[0] == '-' && (forall i :: 1 <= i < |r| ==> '0' <= r[i] <= '9') && DigitsValue(r[1..]) == -n
  {
    NatToStringRoundTrip(if n >= 0 then n else -n);
    assert n < 0 ==> ("-" + NatToString(-n))[1..] == NatToString(-n);
    if n >= 0 then NatToString(n) else "-" + NatToString(-n)
  }

  /** `parts.join(sep)`. */
  function JoinWith(parts: seq<string>, sep: string): (r: string)
    ensures parts == [] ==> r == ""
    ensures |parts| == 1 ==> r == parts[0]
    ensures |parts| >= 2 ==> r == parts[0] + sep + JoinWith(parts[1..], sep)
  {
    if parts == [] then ""
    else if |parts| == 1 then parts[0]
    else parts[0] + sep + JoinWith(parts[1..], sep)
  }

  /** The path of a member under `path`: the key alone at the root. */
  function ChildPath(path: string, key: string): (r: string)
    ensures path == "" ==> r == key
    ensures path != "" ==> r == path + "." + key
  {
    if path == "" then key else path + "." + key
  }

  /** The path of the `index`-th element under `path`. */
  function IndexPath(path: string, index: nat): (r: string)
    ensures r == path + "[" + NatToString(index) + "]"
    ensures r != ""
  {
    path + "[" + NatToString(index) + "]"
  }

  /** The number a string of decimal digits denotes. */
  function DigitsValue(s: string): nat
    requires forall i :: 0 <= i < |s| ==> '0' <= s[i] <= '9'
  {
    if s == [] then 0 else 10 * DigitsValue(s[..|s| - 1]) + (s[|s| - 1] as int - '0' as int)
  }

  /** Reading the decimal rendering back gives the number. */
  lemma {:induction false} NatToStringRoundTrip(n: nat)
    ensures DigitsValue(NatToString(n)) == n
  {
    if n >= 10 {
      NatToStringRoundTrip(n / 10);
      var r := NatToString(n);
      assert r[..|r| - 1] == NatToString(n / 10);
    }
  }

  /** Distinct keys under one path give distinct paths. */
  lemma ChildPathDistinct(path: string, k1: string, k2: string)
    requires ChildPath(path, k1) == ChildPath(path, k2)
    ensures k1 == k2
  {
    if path != "" {
      assert k1 == ChildPath(path, k1)[|path| + 1..];
    }
  }

  /** Distinct indices under one path give distinct paths. */
  lemma IndexPathDistinct(path: string, i: nat, j: nat)
    requires IndexPath(path, i) == IndexPath(path, j)
    ensures i == j
  {
    var a := NatToString(i);
    var b := NatToString(j);
    assert |a| == |b|;
    assert a == IndexPath(path, i)[|path| + 1..|path| + 1 + |a|];
    assert b == IndexPath(path, j)[|path| + 1..|path| + 1 + |b|];
    NatToStringRoundTrip(i);
    NatToStringRoundTrip(j);
  }

  // ---------------------------------------------------------------------
  // Key order: strings compared by code point, as Rust's `Ord for String`
  // and Python's `sorted` on `str` both do.
  // ---------------------------------------------------------------------

  predicate LexLess(a: string, b: string)
    decreases |a|
  {
    if a == [] then b != []
    else if b == [] then false
    else if a[0] != b[0] then a[0] < b[0]
    else LexLess(a[1..], b[1..])
  }

  lemma {:induction false} LexLessIrreflexive(a: string)
    ensures !LexLess(a, a)
    decreases |a|
  {
    if a != [] {
      LexLessIrreflexive(a[1..]);
    }
  }

  lemma {:induction false} LexLessTransitive(a: string, b: string, c: string)
    requires LexLess(a, b) && LexLess(b, c)
    ensures LexLess(a, c)
    decreases |a|
  {
    if a != [] && b != [] && c != [] && a[0] == b[0] && b[0] == c[0] {
      LexLessTransitive(a[1..], b[1..], c[1..]);
    }
  }

  lemma {:induction false} LexLessTotal(a: string, b: string)
    requires a != b
    ensures LexLess(a, b) || LexLess(b, a)
    decreases |a|
  {
    if a != [] && b != [] && a[0] == b[0] {
      assert a == [a[0]] + a[1..] && b == [b[0]] + b[1..];
      LexLessTotal(a[1..], b[1..]);
    }
  }

  predicate IsLeast(m: string, s: set<string>) {
    m in s && forall x :: x in s ==> !LexLess(x, m)
  }

  lemma {:induction false} LeastExists(s: set<string>)
    requires s != {}
    ensures exists m :: IsLeast(m, s)
    decreases |s|
  {
    var y :| y in s;
    if s == {y} {
      LexLessIrreflexive(y);
      assert IsLeast(y, s);
    } else {
      LeastExists(s - {y});
      var m :| IsLeast(m, s - {y});
      if LexLess(y, m) {
        forall x | x in s
          ensures !LexLess(x, y)
        {
          if x == y {
            LexLessIrreflexive(y);
          } else if LexLess(x, y) {
            LexLessTransitive(x, y, m);
          }
        }
        assert IsLeast(y, s);
      } else {
        assert IsLeast(m, s);
      }
    }
  }

  lemma LeastUnique(m1: string, m2: string, s: set<string>)
    requires IsLeast(m1, s) && IsLeast(m2, s)
    ensures m1 == m2
  {
    if m1 != m2 {
      LexLessTotal(m1, m2);
    }
  }

  lemma LeastUniqueIn(s: set<string>)
    ensures forall m1, m2 :: IsLeast(m1, s) && IsLeast(m2, s) ==> m1 == m2
  {
    forall m1, m2 | IsLeast(m1, s) && IsLeast(m2, s) ensures m1 == m2 {
      LeastUnique(m1, m2, s);
    }
  }

  predicate StrictlySorted(keys: seq<string>) {
    forall i, j :: 0 <= i < j < |keys| ==> LexLess(keys[i], keys[j])
  }

  /** The elements of `s` in ascending order, each once (a `BTreeSet` walk). */
  function SortedKeys(s: set<string>): (r: seq<string>)
    ensures |r| == |s|
    ensures forall k :: k in r <==> k in s
    ensures StrictlySorted(r)
    decreases |s|
  {
    if s == {} then []
    else
      LeastExists(s);
      LeastUniqueIn(s);
      var m :| IsLeast(m, s);
      var rest := SortedKeys(s - {m});
      assert forall k :: k in rest ==> LexLess(m, k) by {
        forall k | k in rest ensures LexLess(m, k) {
          assert k in s && k != m;
          LexLessTotal(m, k);
        }
      }
      [m] + rest
  }
}

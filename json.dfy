/**
 * Present/absent values, as Rust's `Option`. The failure-compatible members
 * let decoders chain field reads with `:-`.
 */
module Wrappers {

  datatype Option<+T> = None | Some(value: T) {

    predicate IsFailure() {
      None?
    }

    function PropagateFailure<U>(): Option<U>
      requires None?
    {
      None
    }

    function Extract(): T
      requires Some?
    {
      value
    }
  }
}

/**
 * An abstract JSON value tree, standing for what serde_json hands to the
 * derived decoders and takes from the derived encoders. Object keys are
 * unordered, so an object is a map. Numbers are integers.
 */
module Json {
  import opened Wrappers

  /** Rust's `u32` and `i32`: serde rejects a JSON integer outside these ranges. */
  type u32 = n: int | 0 <= n < 0x1_0000_0000
  type i32 = n: int | -0x8000_0000 <= n < 0x8000_0000

  datatype Json =
    | JNull
    | JBool(b: bool)
    | JInt(n: int)
    | JString(s: string)
    | JArray(items: seq<Json>)
    | JObject(fields: map<string, Json>)

  type Fields = map<string, Json>

  // ---------------------------------------------------------------------
  // Primitive decoders: a `bool`, `u32`, `i32` or `String` field accepts
  // exactly the matching JSON kind, with integers range-checked.
  // ---------------------------------------------------------------------

  function AsBool(j: Json): (r: Option<bool>)
    ensures r.Some? <==> j.JBool?
    ensures r.Some? ==> j == JBool(r.value)
  {
    if j.JBool? then Some(j.b) else None
  }

  function AsU32(j: Json): (r: Option<u32>)
    ensures r.Some? <==> j.JInt? && 0 <= j.n < 0x1_0000_0000
    ensures r.Some? ==> j == JInt(r.value)
  {
    if j.JInt? && 0 <= j.n < 0x1_0000_0000 then Some(j.n) else None
  }

  function AsI32(j: Json): (r: Option<i32>)
    ensures r.Some? <==> j.JInt? && -0x8000_0000 <= j.n < 0x8000_0000
    ensures r.Some? ==> j == JInt(r.value)
  {
    if j.JInt? && -0x8000_0000 <= j.n < 0x8000_0000 then Some(j.n) else None
  }

  function AsString(j: Json): (r: Option<string>)
    ensures r.Some? <==> j.JString?
    ensures r.Some? ==> j == JString(r.value)
  {
    if j.JString? then Some(j.s) else None
  }

  // ---------------------------------------------------------------------
  // Vec<T>: decoded and encoded element by element, front to back.
  // ---------------------------------------------------------------------

  /** A `Vec<T>` decode: succeeds iff every element decodes, keeping order and length. */
  function DecodeEach<T>(items: seq<Json>, dec: Json -> Option<T>): (r: Option<seq<T>>)
    ensures r.Some? <==> forall i :: 0 <= i < |items| ==> dec(items[i]).Some?
    ensures r.Some? ==> |r.value| == |items|
    ensures r.Some? ==> forall i :: 0 <= i < |items| ==> dec(items[i]) == Some(r.value[i])
  {
    if items == [] then Some([])
    else
      match dec(items[0])
      case None => None
      case Some(x) =>
        match DecodeEach(items[1..], dec)
        case None =>
          assert forall i :: 0 < i < |items| ==> items[i] == items[1..][i - 1];
          None
        case Some(rest) => Some([x] + rest)
  }

  /** A `Vec<T>` encode: one JSON element per element, in order. */
  function EncodeEach<T>(xs: seq<T>, enc: T -> Json): (r: seq<Json>)
    ensures |r| == |xs|
    ensures forall i :: 0 <= i < |xs| ==> r[i] == enc(xs[i])
  {
    if xs == [] then [] else [enc(xs[0])] + EncodeEach(xs[1..], enc)
  }

  /** Decoding an encoded sequence gives it back when each element round-trips. */
  lemma DecodeEachEncodeEach<T>(xs: seq<T>, enc: T -> Json, dec: Json -> Option<T>)
    requires forall i :: 0 <= i < |xs| ==> dec(enc(xs[i])) == Some(xs[i])
    ensures DecodeEach(EncodeEach(xs, enc), dec) == Some(xs)
  {
    var r := DecodeEach(EncodeEach(xs, enc), dec);
    assert r.Some?;
    assert r.value == xs;
  }

  /** Element-wise encoding loses nothing when the element encoding loses nothing. */
  lemma {:induction false} EncodeEachInjective<T>(xs: seq<T>, ys: seq<T>, enc: T -> Json)
    requires forall i :: 0 <= i < |xs| && i < |ys| ==> enc(xs[i]) == enc(ys[i]) ==> xs[i] == ys[i]
    requires EncodeEach(xs, enc) == EncodeEach(ys, enc)
    ensures xs == ys
  {
    var ex, ey := EncodeEach(xs, enc), EncodeEach(ys, enc);
    assert |xs| == |ex| == |ey| == |ys|;
    forall i | 0 <= i < |xs| ensures xs[i] == ys[i] {
      assert ex[i] == enc(xs[i]) && ey[i] == enc(ys[i]);
    }
  }

  /** `j` is an array each of whose elements decodes with `dec`. */
  predicate IsArrayOf<T>(j: Json, dec: Json -> Option<T>) {
    j.JArray? && forall i :: 0 <= i < |j.items| ==> dec(j.items[i]).Some?
  }

  /** `j` is an array whose elements decode, in order, to the elements of `xs`. */
  ghost predicate ArrayHolds<T>(j: Json, dec: Json -> Option<T>, xs: seq<T>) {
    j.JArray? && |j.items| == |xs| && forall i :: 0 <= i < |xs| ==> dec(j.items[i]) == Some(xs[i])
  }

  /** A `Vec<T>` field value: an array, decoded element-wise; anything else fails. */
  function AsArray<T>(j: Json, dec: Json -> Option<T>): (r: Option<seq<T>>)
    ensures r.Some? <==> IsArrayOf(j, dec)
    ensures r.Some? ==> ArrayHolds(j, dec, r.value)
  {
    if j.JArray? then DecodeEach(j.items, dec) else None
  }

  // ---------------------------------------------------------------------
  // Struct fields. A derived decoder looks a field up by its wire name.
  // ---------------------------------------------------------------------

  /** A required field: a missing key is a decode failure. */
  function Required<T>(m: Fields, key: string, dec: Json -> Option<T>): (r: Option<T>)
    ensures r.Some? <==> key in m && dec(m[key]).Some?
    ensures r.Some? ==> dec(m[key]) == r
  {
    if key in m then dec(m[key]) else None
  }

  /**
   * An `Option<T>` field: a missing key or an explicit `null` gives `None`;
   * any other value must decode, and gives `Some`.
   */
  function Optional<T>(m: Fields, key: string, dec: Json -> Option<T>): (r: Option<Option<T>>)
    ensures key !in m ==> r == Some(None)
    ensures key in m && m[key] == JNull ==> r == Some(None)
    ensures key in m && m[key] != JNull ==>
      (r.Some? <==> dec(m[key]).Some?) && (r.Some? ==> r.value == dec(m[key]))
  {
    if key !in m || m[key] == JNull then Some(None)
    else
      match dec(m[key])
      case None => None
      case Some(v) => Some(Some(v))
  }

  /** The value under `key` is present and decodes with `dec`. */
  predicate Decodes<T>(m: Fields, key: string, dec: Json -> Option<T>) {
    key in m && dec(m[key]).Some?
  }

  /** The value under `key` is present and decodes with `dec` to `v`. */
  ghost predicate Holds<T>(m: Fields, key: string, dec: Json -> Option<T>, v: T) {
    key in m && dec(m[key]) == Some(v)
  }

  /** The `Option<T>` field under `key` decodes to `v`. */
  ghost predicate HoldsOptional<T>(m: Fields, key: string, dec: Json -> Option<T>, v: Option<T>) {
    Optional(m, key, dec) == Some(v)
  }

  /** Two objects carry the same entries for every key in `keys`. */
  ghost predicate AgreeOn(m1: Fields, m2: Fields, keys: set<string>) {
    forall k :: k in keys ==> (k in m1 <==> k in m2) && (k in m1 ==> m1[k] == m2[k])
  }

  /** Objects that agree on a key read the same required field there. */
  lemma RequiredAgree<T>(m1: Fields, m2: Fields, keys: set<string>, key: string, dec: Json -> Option<T>)
    requires AgreeOn(m1, m2, keys) && key in keys
    ensures Required(m1, key, dec) == Required(m2, key, dec)
  {
  }

  /** Objects that agree on a key read the same optional field there. */
  lemma OptionalAgree<T>(m1: Fields, m2: Fields, keys: set<string>, key: string, dec: Json -> Option<T>)
    requires AgreeOn(m1, m2, keys) && key in keys
    ensures Optional(m1, key, dec) == Optional(m2, key, dec)
  {
  }

  /** The value `j` is an object without the key `k`. */
  predicate Lacks(j: Json, k: string) {
    j.JObject? && k !in j.fields
  }
}
